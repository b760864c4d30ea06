/**
 * The forEach loops of NetServer's handlers, over the values of
 * ServerState: each walks a group of players, changes the fields of each
 * player's Client and makes one send* call on it.
 *
 * A loop over a Set (a MatchFound's players, a lobby's usernames) takes
 * the players in an order the model leaves open (HashSet iteration): what
 * it promises holds for every order. A loop over a team's List keeps the
 * team's order.
 */
module ServerLoops {
  import opened Wrappers
  import opened Config
  import opened Data
  import opened Messages
  import opened Lobbies
  import opened ServerState
  import opened Accounts

  /** One send* call: the client it is made on and the notice it sends. */
  datatype Delivery = Delivery(to: ClientId, notice: Notice)

  /** The ways a loop rewrites the fields of a Client. */
  datatype Change =
    | ToIdle                        // state IDLE, matchFound, lobby and team null
    | ToQueue                       // state IN_MATCHMAKING, matchFound null
    | ToMatch(m: MatchId)           // state MATCH_FOUND with the MatchFound m
    | ToSeat(l: LobbyId, t: Team)   // state IN_LOBBY in lobby l, team t, matchFound null
    | Unseat                        // state IDLE, lobby and team null, matchFound as it was

  /** The fields of a Client after the change; the account stays. */
  function Apply(k: Change, s: Session): (r: Session)
    ensures r.account == s.account
  {
    match k
    case ToIdle => Session(IDLE, s.account, None, None, None)
    case ToQueue => Session(IN_MATCHMAKING, s.account, None, None, None)
    case ToMatch(m) => Session(MATCH_FOUND, s.account, Some(m), None, None)
    case ToSeat(l, t) => Session(IN_LOBBY, s.account, None, Some(l), Some(t))
    case Unseat => Session(IDLE, s.account, s.matchFound, None, None)
  }

  /**
   * authenticatedClients::get over the usernames us: the clients
   * authenticated under a user of us whose record names that user.
   */
  function ClientsOf(cs: map<ClientId, Session>, auth: map<string, ClientId>, us: set<string>): set<ClientId> {
    set c | c in cs && cs[c].account.Some? && cs[c].account.value in us
                    && cs[c].account.value in auth && auth[cs[c].account.value] == c
  }

  /** The clients ids changed by k, every other one as it was. */
  function Changed(cs: map<ClientId, Session>, ids: set<ClientId>, k: Change): (r: map<ClientId, Session>)
    ensures r.Keys == cs.Keys
    ensures forall c {:trigger r[c]} :: c in cs ==> r[c] == if c in ids then Apply(k, cs[c]) else cs[c]
  {
    map c | c in cs :: if c in ids then Apply(k, cs[c]) else cs[c]
  }

  /** On clients that hold no MatchFound, Unseat is the change to IDLE with everything null. */
  lemma UnseatAsIdle(cs: map<ClientId, Session>, auth: map<string, ClientId>, us: set<string>)
    requires forall u :: u in us && u in auth && auth[u] in cs ==> cs[auth[u]].matchFound.None?
    ensures Changed(cs, ClientsOf(cs, auth, us), Unseat) == Changed(cs, ClientsOf(cs, auth, us), ToIdle)
  {
    var ids := ClientsOf(cs, auth, us);
    forall c | c in ids ensures Apply(Unseat, cs[c]) == Apply(ToIdle, cs[c]) {
      assert cs[auth[cs[c].account.value]].matchFound.None?;
    }
  }

  /** One send* call to the client of each user of us, with the notice n. */
  ghost function Deliveries(auth: map<string, ClientId>, us: set<string>, n: Notice): set<Delivery>
    requires us <= auth.Keys
  {
    set u | u in us :: Delivery(auth[u], n)
  }

  /** sent makes exactly one call per user of us, in some order. */
  ghost predicate OncePerUser(sent: seq<Delivery>, auth: map<string, ClientId>, us: set<string>, n: Notice)
    requires us <= auth.Keys
  {
    |sent| == |us| && forall d :: d in sent <==> d in Deliveries(auth, us, n)
  }


  /**
   * Every user of us is authenticated on a client whose account is that
   * user, so distinct users have distinct clients.
   */
  ghost predicate Owned(cs: map<ClientId, Session>, auth: map<string, ClientId>, us: set<string>) {
    forall u :: u in us ==> u in auth && auth[u] in cs && cs[auth[u]].account == Some(u)
  }

  lemma AuthOwned(w: World, us: set<string>)
    requires AuthOk(w) && us <= w.auth.Keys
    ensures Owned(w.clients, w.auth, us)
  {
  }

  /** After the clients of us change by k, the client of v has changed iff v is in us. */
  lemma ChangedAt(cs: map<ClientId, Session>, auth: map<string, ClientId>, us: set<string>, k: Change, v: string)
    requires Owned(cs, auth, us) && Owned(cs, auth, {v})
    ensures auth[v] in Changed(cs, ClientsOf(cs, auth, us), k)
    ensures Changed(cs, ClientsOf(cs, auth, us), k)[auth[v]] == if v in us then Apply(k, cs[auth[v]]) else cs[auth[v]]
  {
  }

  /** Changing clients keeps their accounts, so the users they own. */
  lemma OwnedChanged(cs: map<ClientId, Session>, auth: map<string, ClientId>, us: set<string>, ids: set<ClientId>, k: Change)
    requires Owned(cs, auth, us)
    ensures Owned(Changed(cs, ids, k), auth, us)
  {
  }

  lemma ChangedStep(cs: map<ClientId, Session>, ids: set<ClientId>, c: ClientId, k: Change)
    requires c in cs
    ensures Changed(cs, ids + {c}, k) == Changed(cs, ids, k)[c := Apply(k, cs[c])]
  {
  }

  lemma ClientsOfStep(cs: map<ClientId, Session>, auth: map<string, ClientId>, us: set<string>, done: set<string>, u: string)
    requires Owned(cs, auth, us) && done <= us && u in us && u !in done
    ensures ClientsOf(cs, auth, done + {u}) == ClientsOf(cs, auth, done) + {auth[u]}
    ensures auth[u] !in ClientsOf(cs, auth, done)
  {
  }

  lemma DeliveriesStep(cs: map<ClientId, Session>, auth: map<string, ClientId>, us: set<string>,
                       done: set<string>, u: string, n: Notice, sent: seq<Delivery>)
    requires Owned(cs, auth, us) && done <= us && u in us && u !in done
    requires OncePerUser(sent, auth, done, n)
    ensures OncePerUser(sent + [Delivery(auth[u], n)], auth, done + {u}, n)
  {
    assert Deliveries(auth, done + {u}, n) == Deliveries(auth, done, n) + {Delivery(auth[u], n)};
    assert Delivery(auth[u], n) !in Deliveries(auth, done, n);
  }

  /** Sending everybody the same notice sends nothing else. */
  lemma SameNotice(sent: seq<Delivery>, auth: map<string, ClientId>, us: set<string>, n: Notice)
    requires us <= auth.Keys && OncePerUser(sent, auth, us, n)
    ensures forall i :: 0 <= i < |sent| ==> sent[i].notice == n
  {
    forall i | 0 <= i < |sent| ensures sent[i].notice == n {
      assert sent[i] in Deliveries(auth, us, n);
    }
  }

  /** A member of s not yet done, when done falls short of s. */
  method SomeLeft<T>(s: set<T>, done: set<T>) returns (u: T)
    requires done <= s && done != s
    ensures u in s && u !in done
  {
    assert !(s <= done);
    u :| u in s && u !in done;
  }

  /** One more user done leaves fewer to do. */
  lemma FewerLeft<T>(s: set<T>, done: set<T>, u: T)
    requires u in s && u !in done
    ensures |s - (done + {u})| < |s - done|
  {
    assert s - (done + {u}) == (s - done) - {u};
  }

  /**
   * The loop over a set of users: for each one, in an order left open,
   * the fields of its client change by k and it is sent n.
   */
  method ChangeUsers(cs: map<ClientId, Session>, auth: map<string, ClientId>, us: set<string>,
                     k: Change, n: Notice)
    returns (cs': map<ClientId, Session>, sent: seq<Delivery>)
    requires Owned(cs, auth, us)
    ensures cs' == Changed(cs, ClientsOf(cs, auth, us), k)
    ensures OncePerUser(sent, auth, us, n)
  {
    var order := Listed(us);
    cs', sent := ChangeInOrder(cs, auth, order, k, n);
    TellOnce(auth, order, us, n);
  }

  /**
   * A player a loop can send back to IDLE: logged in, in MATCH_FOUND or
   * IN_LOBBY, holding only objects the loop's caller has taken apart.
   */
  ghost predicate Releasable(w: World, u: string, x: Exempt) {
    && Has(w, u) && (At(w, u).state == MATCH_FOUND || At(w, u).state == IN_LOBBY)
    && (At(w, u).matchFound.Some? ==> At(w, u).matchFound.value in x.matches)
    && (At(w, u).lobby.Some? ==> At(w, u).lobby.value in x.lobbies)
  }

  lemma IdleMovable(w: World, u: string, x: Exempt)
    requires ServerInv(w, x) && Releasable(w, u, x)
    ensures Movable(w, u, Apply(ToIdle, At(w, u)), x, x)
  {
    assert x.pending == (x.pending - {u}) + {};
  }

  /** Which clients belong to which users depends only on their accounts. */
  lemma ClientsOfAccounts(cs: map<ClientId, Session>, cs': map<ClientId, Session>, auth: map<string, ClientId>, us: set<string>)
    requires cs'.Keys == cs.Keys && forall c :: c in cs ==> cs'[c].account == cs[c].account
    ensures ClientsOf(cs', auth, us) == ClientsOf(cs, auth, us)
  {
  }

  lemma ChangedShift(cs: map<ClientId, Session>, ids: set<ClientId>, c: ClientId, k: Change)
    requires c in cs && c !in ids
    ensures Changed(cs[c := Apply(k, cs[c])], ids, k) == Changed(cs, ids + {c}, k)
  {
  }

  /** Changing the clients of us one by one is changing them all at once. */
  lemma ChangedSplit(w: World, us: set<string>, u: string, k: Change)
    requires AuthOk(w) && us <= w.auth.Keys && u in us
    ensures Has(w, u)
    ensures var w1 := Move(w, u, Apply(k, At(w, u)));
      w1.(clients := Changed(w1.clients, ClientsOf(w1.clients, w1.auth, us - {u}), k))
      == w.(clients := Changed(w.clients, ClientsOf(w.clients, w.auth, us), k))
  {
    AuthOwned(w, us);
    var w1 := Move(w, u, Apply(k, At(w, u)));
    ClientsOfAccounts(w.clients, w1.clients, w.auth, us - {u});
    ClientsOfStep(w.clients, w.auth, us, us - {u}, u);
    assert us - {u} + {u} == us;
    ChangedShift(w.clients, ClientsOf(w.clients, w.auth, us - {u}), w.auth[u], k);
  }

  /** Changing no client changes nothing. */
  lemma ChangedNone(w: World, us: set<string>, k: Change)
    requires us == {}
    ensures w.(clients := Changed(w.clients, ClientsOf(w.clients, w.auth, us), k)) == w
  {
    assert ClientsOf(w.clients, w.auth, us) == {};
  }

  /** Sending one user of us back to IDLE keeps the invariant and the others releasable. */
  lemma IdleOneKeepsInv(w: World, us: set<string>, u: string, x: Exempt)
    requires ServerInv(w, x) && u in us && forall v :: v in us ==> Releasable(w, v, x)
    ensures Has(w, u)
    ensures ServerInv(Move(w, u, Apply(ToIdle, At(w, u))), x)
    ensures forall v :: v in us - {u} ==> Releasable(Move(w, u, Apply(ToIdle, At(w, u))), v, x)
  {
    var s := Apply(ToIdle, At(w, u));
    IdleMovable(w, u, x);
    MoveKeepsInv(w, u, s, x, x);
    MoveKeeps(w, u, s, us - {u});
  }

  /** Sending every user of us back to IDLE keeps the invariant. */
  lemma {:induction false} IdleAllKeepsInv(w: World, us: set<string>, x: Exempt)
    requires ServerInv(w, x) && forall u :: u in us ==> Releasable(w, u, x)
    ensures us <= w.auth.Keys
    ensures ServerInv(w.(clients := Changed(w.clients, ClientsOf(w.clients, w.auth, us), ToIdle)), x)
    decreases |us|
  {
    if us == {} {
      ChangedNone(w, us, ToIdle);
    } else {
      var u :| u in us;
      IdleOneKeepsInv(w, us, u, x);
      IdleAllKeepsInv(Move(w, u, Apply(ToIdle, At(w, u))), us - {u}, x);
      ChangedSplit(w, us, u, ToIdle);
    }
  }

  /**
   * The loop that sends each user of us to IDLE with lobby, team and
   * matchFound null, and sends it n.
   */
  method IdleUsers(cs: map<ClientId, Session>, auth: map<string, ClientId>, us: set<string>, n: Notice,
                   ghost w: World, ghost x: Exempt)
    returns (cs': map<ClientId, Session>, sent: seq<Delivery>)
    requires ServerInv(w, x) && w.clients == cs && w.auth == auth
    requires forall u :: u in us ==> Releasable(w, u, x)
    ensures us <= auth.Keys
    ensures cs' == Changed(cs, ClientsOf(cs, auth, us), ToIdle)
    ensures OncePerUser(sent, auth, us, n)
    ensures ServerInv(w.(clients := cs'), x)
  {
    IdleAllKeepsInv(w, us, x);
    AuthOwned(w, us);
    cs', sent := ChangeUsers(cs, auth, us, ToIdle, n);
  }

  // ------------------------------------------------------------ ordered loops

  /** The team's usernames as a set. */
  function NameSet(us: seq<string>): (r: set<string>)
    ensures forall u :: u in r <==> u in us
  {
    set u | u in us
  }

  /** One send* call to the client of each user of us, in the order of us, with the notice n. */
  function Tell(auth: map<string, ClientId>, us: seq<string>, n: Notice): (ds: seq<Delivery>)
    requires forall i :: 0 <= i < |us| ==> us[i] in auth
    ensures |ds| == |us|
    ensures forall i :: 0 <= i < |us| ==> ds[i] == Delivery(auth[us[i]], n)
  {
    if us == [] then [] else Tell(auth, us[..|us| - 1], n) + [Delivery(auth[us[|us| - 1]], n)]
  }

  /** A prefix of us one user longer has one more call at the end. */
  lemma TellStep(auth: map<string, ClientId>, us: seq<string>, i: int, n: Notice)
    requires forall j :: 0 <= j < |us| ==> us[j] in auth
    requires 0 <= i < |us|
    ensures Tell(auth, us[..i + 1], n) == Tell(auth, us[..i], n) + [Delivery(auth[us[i]], n)]
  {
    assert us[..i + 1][..i] == us[..i];
  }

  /** The forEach over a team's list that only sends: one call to each player's client, in the team's order. */
  method TellInOrder(auth: map<string, ClientId>, us: seq<string>, n: Notice) returns (sent: seq<Delivery>)
    requires forall i :: 0 <= i < |us| ==> us[i] in auth
    ensures sent == Tell(auth, us, n)
  {
    sent := [];
    for i := 0 to |us|
      invariant sent == Tell(auth, us[..i], n)
    {
      TellStep(auth, us, i, n);
      sent := sent + [Delivery(auth[us[i]], n)];
    }
    assert us[..|us|] == us;
  }

  /** One step of a loop over a team's list: the client of us[i] joins the changed ones. */
  lemma ChangedInOrderStep(cs: map<ClientId, Session>, auth: map<string, ClientId>, us: seq<string>, i: int, k: Change)
    requires Owned(cs, auth, NameSet(us)) && 0 <= i < |us|
    ensures Changed(cs, ClientsOf(cs, auth, NameSet(us[..i + 1])), k)
         == Changed(cs, ClientsOf(cs, auth, NameSet(us[..i])), k)[auth[us[i]] := Apply(k, cs[auth[us[i]]])]
  {
    var c := auth[us[i]];
    assert ClientsOf(cs, auth, NameSet(us[..i + 1])) == ClientsOf(cs, auth, NameSet(us[..i])) + {c} by {
      assert us[..i + 1] == us[..i] + [us[i]];
    }
    ChangedStep(cs, ClientsOf(cs, auth, NameSet(us[..i])), c, k);
  }

  /**
   * The loop over a team's list: for each player in the team's order, the
   * fields of its client change by k and it is sent n.
   */
  method ChangeInOrder(cs: map<ClientId, Session>, auth: map<string, ClientId>, us: seq<string>,
                       k: Change, n: Notice)
    returns (cs': map<ClientId, Session>, sent: seq<Delivery>)
    requires Owned(cs, auth, NameSet(us))
    ensures cs' == Changed(cs, ClientsOf(cs, auth, NameSet(us)), k)
    ensures sent == Tell(auth, us, n)
  {
    cs', sent := cs, [];
    assert ClientsOf(cs, auth, NameSet(us[..0])) == {};
    for i := 0 to |us|
      invariant cs' == Changed(cs, ClientsOf(cs, auth, NameSet(us[..i])), k)
      invariant sent == Tell(auth, us[..i], n)
    {
      var c := auth[us[i]];
      ChangedInOrderStep(cs, auth, us, i, k);
      TellStep(auth, us, i, n);
      cs' := cs'[c := Apply(k, cs[c])];
      sent := sent + [Delivery(c, n)];
    }
    assert us[..|us|] == us;
  }

  /** The index of the first user of order without an authenticated client, or |order| if there is none. */
  function FirstMissing(order: seq<string>, auth: map<string, ClientId>): (k: nat)
    ensures k <= |order|
    ensures forall i :: 0 <= i < k ==> order[i] in auth
    ensures k < |order| ==> order[k] !in auth
  {
    if order == [] || order[0] !in auth then 0 else 1 + FirstMissing(order[1..], auth)
  }

  /** A listing of users who all have a client has no first missing one. */
  lemma ListedAllFound(order: seq<string>, us: set<string>, auth: map<string, ClientId>)
    requires Listing(order, us) && us <= auth.Keys
    ensures FirstMissing(order, auth) == |order|
  {
  }

  /**
   * The forEach of the select-hero timer task over the lobby's usernames
   * in the iteration order order: each user's client goes IDLE with lobby
   * and team null and is sent n, until the first user with no client,
   * whose null Client ends the loop with a NullPointerException.
   */
  method UnseatUntilMissing(cs: map<ClientId, Session>, auth: map<string, ClientId>, order: seq<string>, n: Notice)
    returns (cs': map<ClientId, Session>, sent: seq<Delivery>, k: nat)
    requires forall u :: u in auth ==> auth[u] in cs && cs[auth[u]].account == Some(u)
    ensures k == FirstMissing(order, auth)
    ensures cs' == Changed(cs, ClientsOf(cs, auth, NameSet(order[..k])), Unseat)
    ensures sent == Tell(auth, order[..k], n)
  {
    cs', sent, k := cs, [], 0;
    assert ClientsOf(cs, auth, NameSet(order[..0])) == {};
    while k < |order| && order[k] in auth
      invariant k <= |order| && forall i :: 0 <= i < k ==> order[i] in auth
      invariant cs' == Changed(cs, ClientsOf(cs, auth, NameSet(order[..k])), Unseat)
      invariant sent == Tell(auth, order[..k], n)
    {
      var c := auth[order[k]];
      UnseatStep(cs, auth, order, k, n);
      cs' := cs'[c := Apply(Unseat, cs[c])];
      sent := sent + [Delivery(c, n)];
      k := k + 1;
    }
  }

  /** One step of UnseatUntilMissing: the prefix grows by the authenticated user order[k]. */
  lemma UnseatStep(cs: map<ClientId, Session>, auth: map<string, ClientId>, order: seq<string>, k: nat, n: Notice)
    requires forall u :: u in auth ==> auth[u] in cs && cs[auth[u]].account == Some(u)
    requires k < |order| && forall i :: 0 <= i <= k ==> order[i] in auth
    ensures Changed(cs, ClientsOf(cs, auth, NameSet(order[..k + 1])), Unseat)
         == Changed(cs, ClientsOf(cs, auth, NameSet(order[..k])), Unseat)[auth[order[k]] := Apply(Unseat, cs[auth[order[k]]])]
    ensures Tell(auth, order[..k + 1], n) == Tell(auth, order[..k], n) + [Delivery(auth[order[k]], n)]
  {
    var upto := order[..k + 1];
    assert upto[..k] == order[..k] && upto[..k + 1] == upto;
    assert Owned(cs, auth, NameSet(upto));
    ChangedInOrderStep(cs, auth, upto, k, Unseat);
    TellStep(auth, upto, k, n);
  }

  /** order lists every element of us exactly once. */
  predicate Listing(order: seq<string>, us: set<string>) {
    && NameSet(order) == us && |order| == |us|
    && forall i, j :: 0 <= i < j < |order| ==> order[i] != order[j]
  }

  /** Collecting a Set into a List: its elements in an iteration order the model leaves open. */
  method Listed(us: set<string>) returns (order: seq<string>)
    ensures Listing(order, us)
  {
    order := [];
    var rest := us;
    while rest != {}
      invariant rest <= us && NameSet(order) == us - rest && |order| + |rest| == |us|
      invariant forall i, j :: 0 <= i < j < |order| ==> order[i] != order[j]
      decreases |rest|
    {
      var u :| u in rest;
      order := order + [u];
      rest := rest - {u};
    }
  }

  /** Telling the users of a listing of us in its order is one call per user of us. */
  lemma TellOnce(auth: map<string, ClientId>, order: seq<string>, us: set<string>, n: Notice)
    requires Listing(order, us) && us <= auth.Keys
    ensures OncePerUser(Tell(auth, order, n), auth, us, n)
  {
    var ds := Tell(auth, order, n);
    forall d ensures d in ds <==> d in Deliveries(auth, us, n) {
      if d in ds {
        var i :| 0 <= i < |ds| && ds[i] == d;
        assert order[i] in us;
      }
      if d in Deliveries(auth, us, n) {
        var u :| u in us && d == Delivery(auth[u], n);
        var i :| 0 <= i < |order| && order[i] == u;
        assert ds[i] == d;
      }
    }
  }

  /** The loop over a set of users that only sends: each one gets n, in an order left open. */
  method Notify(ghost cs: map<ClientId, Session>, auth: map<string, ClientId>, us: set<string>, n: Notice)
    returns (sent: seq<Delivery>)
    requires Owned(cs, auth, us)
    ensures OncePerUser(sent, auth, us, n)
  {
    sent := [];
    var done := {};
    while done != us
      invariant done <= us
      invariant OncePerUser(sent, auth, done, n)
      decreases |us - done|
    {
      var u :| u in us && u !in done;
      DeliveriesStep(cs, auth, us, done, u, n, sent);
      sent := sent + [Delivery(auth[u], n)];
      done := done + {u};
    }
  }

  // ------------------------------------------------- groups and the invariant

  /** Sending one pending player of a new MatchFound m to MATCH_FOUND with it keeps the invariant. */
  lemma MatchOneKeepsInv(w: World, g: set<string>, u: string, m: MatchId, x: Exempt, p: set<string>)
    requires ServerInv(w, x) && m in x.matches && m in w.matches
    requires g <= w.matches[m].players.Keys && g <= x.pending && u in g && p == x.pending - g
    ensures Has(w, u)
    ensures var w1 := Move(w, u, Apply(ToMatch(m), At(w, u)));
      var x1 := x.(pending := x.pending - {u});
      && ServerInv(w1, x1) && m in x1.matches && m in w1.matches
      && g - {u} <= w1.matches[m].players.Keys && g - {u} <= x1.pending && p == x1.pending - (g - {u})
  {
    var s := Apply(ToMatch(m), At(w, u));
    var x1 := x.(pending := x.pending - {u});
    assert Movable(w, u, s, x, x1);
    MoveKeepsInv(w, u, s, x, x1);
  }

  /** Sending the players of a new MatchFound m, pending in matchmaking, to MATCH_FOUND with it keeps the invariant. */
  lemma {:induction false} MatchAllKeepsInv(w: World, g: set<string>, m: MatchId, x: Exempt, p: set<string>)
    requires ServerInv(w, x) && m in x.matches && m in w.matches
    requires g <= w.matches[m].players.Keys && g <= x.pending && p == x.pending - g
    ensures g <= w.auth.Keys
    ensures ServerInv(w.(clients := Changed(w.clients, ClientsOf(w.clients, w.auth, g), ToMatch(m))), x.(pending := p))
    decreases |g|
  {
    if g == {} {
      ChangedNone(w, g, ToMatch(m));
    } else {
      var u :| u in g;
      MatchOneKeepsInv(w, g, u, m, x, p);
      MatchAllKeepsInv(Move(w, u, Apply(ToMatch(m), At(w, u))), g - {u}, m, x.(pending := x.pending - {u}), p);
      ChangedSplit(w, g, u, ToMatch(m));
    }
  }

  /** A player of an accepted MatchFound, to be seated in team t of the new lobby l. */
  ghost predicate Seatable(w: World, u: string, l: LobbyId, t: Team, x: Exempt)
    requires l in w.lobbies
  {
    && Has(w, u) && At(w, u).state == MATCH_FOUND
    && At(w, u).matchFound.Some? && At(w, u).matchFound.value in x.matches
    && SeatedIn(w, l, t, u)
  }

  /** Seating one user of us keeps the invariant and the others seatable. */
  lemma SeatOneKeepsInv(w: World, us: set<string>, u: string, l: LobbyId, t: Team, x: Exempt)
    requires ServerInv(w, x) && l in x.lobbies && l in w.lobbies && u in us
    requires forall v :: v in us ==> Seatable(w, v, l, t, x)
    ensures Has(w, u)
    ensures var w1 := Move(w, u, Apply(ToSeat(l, t), At(w, u)));
      && ServerInv(w1, x) && l in w1.lobbies && w1.lobbies == w.lobbies
      && forall v :: v in us - {u} ==> Seatable(w1, v, l, t, x)
  {
    var s := Apply(ToSeat(l, t), At(w, u));
    SeatOneInv(w, u, l, t, x);
    MoveKeeps(w, u, s, us - {u});
    KeptSeatable(w, Move(w, u, s), us - {u}, l, t, x);
  }

  /** Seating the seatable user u keeps the invariant. */
  lemma SeatOneInv(w: World, u: string, l: LobbyId, t: Team, x: Exempt)
    requires ServerInv(w, x) && l in x.lobbies && l in w.lobbies && Seatable(w, u, l, t, x)
    ensures ServerInv(Move(w, u, Apply(ToSeat(l, t), At(w, u))), x)
  {
    var s := Apply(ToSeat(l, t), At(w, u));
    assert x.pending == x.pending - {u};
    assert Movable(w, u, s, x, x);
    MoveKeepsInv(w, u, s, x, x);
  }

  /** Users whose records and lobbies are kept stay seatable. */
  lemma KeptSeatable(w: World, w1: World, us: set<string>, l: LobbyId, t: Team, x: Exempt)
    requires l in w.lobbies && w1.lobbies == w.lobbies && Keeps(w, w1, us)
    requires forall v :: v in us ==> Seatable(w, v, l, t, x)
    ensures forall v :: v in us ==> Seatable(w1, v, l, t, x)
  {
  }

  /** Seating every user of us in team t of lobby l, being built, keeps the invariant. */
  lemma {:induction false} SeatAllKeepsInv(w: World, us: set<string>, l: LobbyId, t: Team, x: Exempt)
    requires ServerInv(w, x) && l in x.lobbies && l in w.lobbies
    requires forall u :: u in us ==> Seatable(w, u, l, t, x)
    ensures us <= w.auth.Keys
    ensures ServerInv(w.(clients := Changed(w.clients, ClientsOf(w.clients, w.auth, us), ToSeat(l, t))), x)
    decreases |us|
  {
    if us == {} {
      ChangedNone(w, us, ToSeat(l, t));
    } else {
      var u :| u in us;
      SeatOneKeepsInv(w, us, u, l, t, x);
      SeatAllKeepsInv(Move(w, u, Apply(ToSeat(l, t), At(w, u))), us - {u}, l, t, x);
      ChangedSplit(w, us, u, ToSeat(l, t));
    }
  }

  // ------------------------------------------------------- the match result

  /** A player's MATCH_PLAYED notice: the summary and its account's integer rank. */
  function Played(accounts: map<string, AccountState>, u: string, s: MatchSummary): Notice
    requires u in accounts
  {
    MatchPlayed(s, RoundRank(accounts[u].rank))
  }

  /** One sendMatchPlayed call to the client of each user of us, in the order of us. */
  function TellPlayed(auth: map<string, ClientId>, accounts: map<string, AccountState>, us: seq<string>,
                      s: MatchSummary): (ds: seq<Delivery>)
    requires forall i :: 0 <= i < |us| ==> us[i] in auth && us[i] in accounts
    ensures |ds| == |us|
    ensures forall i :: 0 <= i < |us| ==> ds[i] == Delivery(auth[us[i]], Played(accounts, us[i], s))
  {
    if us == [] then []
    else TellPlayed(auth, accounts, us[..|us| - 1], s) + [Delivery(auth[us[|us| - 1]], Played(accounts, us[|us| - 1], s))]
  }

  /** A prefix of us one user longer has one more sendMatchPlayed call at the end. */
  lemma TellPlayedStep(auth: map<string, ClientId>, accounts: map<string, AccountState>, us: seq<string>, i: nat,
                       s: MatchSummary)
    requires i < |us| && forall j :: 0 <= j < |us| ==> us[j] in auth && us[j] in accounts
    ensures TellPlayed(auth, accounts, us[..i + 1], s)
         == TellPlayed(auth, accounts, us[..i], s) + [Delivery(auth[us[i]], Played(accounts, us[i], s))]
  {
    assert us[..i + 1][..i] == us[..i];
  }

  /** The sendMatchPlayed calls due to the users of us. */
  ghost function PlayedDeliveries(auth: map<string, ClientId>, accounts: map<string, AccountState>, us: set<string>,
                                  s: MatchSummary): set<Delivery>
    requires us <= auth.Keys && us <= accounts.Keys
  {
    set u | u in us :: Delivery(auth[u], Played(accounts, u, s))
  }

  /** sent makes exactly one sendMatchPlayed call per user of us, with that user's rank, in some order. */
  ghost predicate PlayedOncePerUser(sent: seq<Delivery>, auth: map<string, ClientId>, accounts: map<string, AccountState>,
                                    us: set<string>, s: MatchSummary)
    requires us <= auth.Keys && us <= accounts.Keys
  {
    |sent| == |us| && forall d :: d in sent <==> d in PlayedDeliveries(auth, accounts, us, s)
  }

  /** The last loop of a played match, over a listing of the players: each goes IDLE and is sent its result. */
  method IdleInOrder(cs: map<ClientId, Session>, auth: map<string, ClientId>, accounts: map<string, AccountState>,
                     us: seq<string>, s: MatchSummary)
    returns (cs': map<ClientId, Session>, sent: seq<Delivery>)
    requires Owned(cs, auth, NameSet(us)) && forall i :: 0 <= i < |us| ==> us[i] in accounts
    ensures cs' == Changed(cs, ClientsOf(cs, auth, NameSet(us)), ToIdle)
    ensures sent == TellPlayed(auth, accounts, us, s)
  {
    cs', sent := cs, [];
    assert ClientsOf(cs, auth, NameSet(us[..0])) == {};
    for i := 0 to |us|
      invariant cs' == Changed(cs, ClientsOf(cs, auth, NameSet(us[..i])), ToIdle)
      invariant sent == TellPlayed(auth, accounts, us[..i], s)
    {
      var c := auth[us[i]];
      ChangedInOrderStep(cs, auth, us, i, ToIdle);
      TellPlayedStep(auth, accounts, us, i, s);
      cs' := cs'[c := Apply(ToIdle, cs[c])];
      sent := sent + [Delivery(c, Played(accounts, us[i], s))];
    }
    assert us[..|us|] == us;
  }

  /** Telling the users of a listing of us in its order is one sendMatchPlayed call per user of us. */
  lemma TellPlayedOnce(auth: map<string, ClientId>, accounts: map<string, AccountState>, order: seq<string>,
                       us: set<string>, s: MatchSummary)
    requires Listing(order, us) && us <= auth.Keys && us <= accounts.Keys
    ensures PlayedOncePerUser(TellPlayed(auth, accounts, order, s), auth, accounts, us, s)
  {
    var ds := TellPlayed(auth, accounts, order, s);
    forall d ensures d in ds <==> d in PlayedDeliveries(auth, accounts, us, s) {
      if d in ds {
        var i :| 0 <= i < |ds| && ds[i] == d;
        assert order[i] in us;
      }
      if d in PlayedDeliveries(auth, accounts, us, s) {
        var u :| u in us && d == Delivery(auth[u], Played(accounts, u, s));
        var i :| 0 <= i < |order| && order[i] == u;
        assert ds[i] == d;
      }
    }
  }

  /**
   * The loop that sends each player of a played match to IDLE with lobby
   * and team null and sends it MATCH_PLAYED with its new rank, in an order
   * left open.
   */
  method IdlePlayed(cs: map<ClientId, Session>, auth: map<string, ClientId>, accounts: map<string, AccountState>,
                    us: set<string>, s: MatchSummary, ghost w: World, ghost x: Exempt)
    returns (cs': map<ClientId, Session>, sent: seq<Delivery>)
    requires ServerInv(w, x) && w.clients == cs && w.auth == auth && w.accounts == accounts
    requires forall u :: u in us ==> Releasable(w, u, x)
    ensures us <= auth.Keys && us <= accounts.Keys
    ensures cs' == Changed(cs, ClientsOf(cs, auth, us), ToIdle)
    ensures PlayedOncePerUser(sent, auth, accounts, us, s)
    ensures ServerInv(w.(clients := cs'), x)
  {
    IdleAllKeepsInv(w, us, x);
    AuthOwned(w, us);
    assert us <= accounts.Keys by {
      forall u | u in us ensures u in accounts {
        assert WellFormedSession(At(w, u));
      }
    }
    var order := Listed(us);
    cs', sent := IdleInOrder(cs, auth, accounts, order, s);
    TellPlayedOnce(auth, accounts, order, us, s);
  }
}
