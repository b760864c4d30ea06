/**
 * mm.server.game.Lobby: the ten players of an accepted match, split into
 * two rank-balanced teams, each choosing a hero, with a lobby-wide set of
 * reserved concrete hero indices.
 *
 * A Lobby.Player object belongs to the lobby that was built from it and
 * its hero is only set through trySelectHero, so players are held here as
 * values inside the two team sequences. The selection timer is modelled by
 * its canceled flag only.
 */
module Lobbies {
  import opened Wrappers
  import opened Config
  import opened Validation
  import opened Data

  /** A Lobby.Player: username and integer rank, plus the hero selected so far (None is null). */
  datatype LobbyPlayer = LobbyPlayer(username: string, rank: int, selectedHero: Option<Hero>)

  predicate IsLobbyPlayer(p: LobbyPlayer) {
    IsValidUsername(p.username) && IsIntegerRank(p.rank) && (p.selectedHero.Some? ==> IsHero(p.selectedHero.value))
  }

  predicate AllLobbyPlayers(ps: seq<LobbyPlayer>) {
    forall i :: 0 <= i < |ps| ==> IsLobbyPlayer(ps[i])
  }

  /** The Lobby.Player constructor: a valid username, then an integer rank; no hero yet. */
  function NewLobbyPlayer(username: string, rank: int): (r: Result<LobbyPlayer>)
    ensures r.Ok? <==> IsValidUsername(username) && IsIntegerRank(rank)
    ensures r.Ok? ==> r.value == LobbyPlayer(username, rank, None) && IsLobbyPlayer(r.value)
    ensures r.Fail? ==> r.exc == IllegalArgument
  {
    var u :- ValidateUsername(username);
    var k :- ValidateIntegerRank(rank);
    Ok(LobbyPlayer(u, k, None))
  }

  // ------------------------------------------------------ Sorting by rank

  predicate SortedByRank(s: seq<LobbyPlayer>) {
    forall i, j :: 0 <= i < j < |s| ==> s[i].rank <= s[j].rank
  }

  /** The players of rank k, in their order in s. */
  function WithRank(s: seq<LobbyPlayer>, k: int): seq<LobbyPlayer> {
    if s == [] then [] else (if s[0].rank == k then [s[0]] else []) + WithRank(s[1..], k)
  }

  /** Puts p in front of the first player whose rank is not below p's. */
  function InsertByRank(p: LobbyPlayer, s: seq<LobbyPlayer>): (r: seq<LobbyPlayer>)
    ensures |r| == |s| + 1
  {
    if s == [] || p.rank <= s[0].rank then [p] + s else [s[0]] + InsertByRank(p, s[1..])
  }

  /** The order a stable sort on Integer.compare of the ranks produces. */
  function SortByRank(ps: seq<LobbyPlayer>): (r: seq<LobbyPlayer>)
    ensures |r| == |ps|
  {
    if ps == [] then [] else InsertByRank(ps[0], SortByRank(ps[1..]))
  }

  lemma {:induction false} InsertByRankPermutes(p: LobbyPlayer, s: seq<LobbyPlayer>)
    ensures multiset(InsertByRank(p, s)) == multiset(s) + multiset{p}
  {
    if !(s == [] || p.rank <= s[0].rank) {
      InsertByRankPermutes(p, s[1..]);
      assert s == [s[0]] + s[1..];
    }
  }

  lemma {:induction false} InsertByRankSorted(p: LobbyPlayer, s: seq<LobbyPlayer>)
    requires SortedByRank(s)
    ensures SortedByRank(InsertByRank(p, s))
  {
    if !(s == [] || p.rank <= s[0].rank) {
      var t := InsertByRank(p, s[1..]);
      InsertByRankSorted(p, s[1..]);
      InsertByRankPermutes(p, s[1..]);
      var r := [s[0]] + t;
      forall i, j | 0 <= i < j < |r| ensures r[i].rank <= r[j].rank {
        if i == 0 {
          assert r[j] == t[j - 1];
          assert r[j] in multiset(s[1..]) + multiset{p};
          if r[j] != p {
            var m :| 0 <= m < |s[1..]| && s[1..][m] == r[j];
            assert s[0].rank <= s[m + 1].rank;
          }
        } else {
          assert r[i] == t[i - 1] && r[j] == t[j - 1];
        }
      }
    }
  }

  lemma {:induction false} InsertByRankStable(p: LobbyPlayer, s: seq<LobbyPlayer>, k: int)
    ensures WithRank(InsertByRank(p, s), k) == (if p.rank == k then [p] else []) + WithRank(s, k)
  {
    if s == [] || p.rank <= s[0].rank {
      WithRankCons(p, s, k);
    } else {
      var t := InsertByRank(p, s[1..]);
      InsertByRankStable(p, s[1..], k);
      WithRankCons(s[0], t, k);
      WithRankCons(s[0], s[1..], k);
      assert [s[0]] + s[1..] == s;
      var head := if s[0].rank == k then [s[0]] else [];
      var mine := if p.rank == k then [p] else [];
      assert head == [] || mine == [];
    }
  }

  /** WithRank on a sequence with x in front. */
  lemma WithRankCons(x: LobbyPlayer, t: seq<LobbyPlayer>, k: int)
    ensures WithRank([x] + t, k) == (if x.rank == k then [x] else []) + WithRank(t, k)
  {
    assert ([x] + t)[1..] == t;
  }

  /** The sort is a permutation of its input. */
  lemma {:induction false} SortByRankPermutes(ps: seq<LobbyPlayer>)
    ensures multiset(SortByRank(ps)) == multiset(ps)
  {
    if ps != [] {
      SortByRankPermutes(ps[1..]);
      InsertByRankPermutes(ps[0], SortByRank(ps[1..]));
      assert ps == [ps[0]] + ps[1..];
    }
  }

  /** The sort is ascending by rank. */
  lemma {:induction false} SortByRankSorted(ps: seq<LobbyPlayer>)
    ensures SortedByRank(SortByRank(ps))
  {
    if ps != [] {
      SortByRankSorted(ps[1..]);
      InsertByRankSorted(ps[0], SortByRank(ps[1..]));
    }
  }

  /** The sort is stable: the players of each rank keep their input order. */
  lemma {:induction false} SortByRankStable(ps: seq<LobbyPlayer>, k: int)
    ensures WithRank(SortByRank(ps), k) == WithRank(ps, k)
  {
    if ps != [] {
      SortByRankStable(ps[1..], k);
      InsertByRankStable(ps[0], SortByRank(ps[1..]), k);
    }
  }

  /** An input already in rank order is left as it is. */
  lemma {:induction false} SortByRankOfSorted(ps: seq<LobbyPlayer>)
    requires SortedByRank(ps)
    ensures SortByRank(ps) == ps
  {
    if ps != [] {
      assert SortedByRank(ps[1..]) by {
        forall i, j | 0 <= i < j < |ps[1..]| ensures ps[1..][i].rank <= ps[1..][j].rank {
          assert ps[1..][i] == ps[i + 1] && ps[1..][j] == ps[j + 1];
        }
      }
      SortByRankOfSorted(ps[1..]);
      assert ps[1..] == [] || ps[0].rank <= ps[1..][0].rank;
      assert ps == [ps[0]] + ps[1..];
    }
  }

  /**
   * The teams dealt from players, nothing reserved: Red takes positions
   * 0, 2, 4, ... of the rank order and Blue positions 1, 3, 5, ...
   */
  ghost function Balanced(players: seq<LobbyPlayer>): (l: Lineup)
    ensures |l.red| == (|players| + 1) / 2 && |l.blue| == |players| / 2 && l.reserved == {}
    ensures forall j :: 0 <= j < |l.red| ==> l.red[j] == SortByRank(players)[2 * j]
    ensures forall j :: 0 <= j < |l.blue| ==> l.blue[j] == SortByRank(players)[2 * j + 1]
  {
    var s := SortByRank(players);
    Lineup(seq(|players| / 2, j requires 0 <= j < |players| / 2 => s[2 * j + 1]),
           seq((|players| + 1) / 2, j requires 0 <= j < (|players| + 1) / 2 => s[2 * j]), {})
  }

  /**
   * createBalancedTeams: players in rank order are dealt alternately, the
   * first to RED, so Red gets positions 0, 2, 4, ... and Blue 1, 3, 5, ...
   * of the sorted order. The teams together are exactly the input players.
   */
  method CreateBalancedTeams(players: seq<LobbyPlayer>) returns (blue: seq<LobbyPlayer>, red: seq<LobbyPlayer>)
    ensures |red| == (|players| + 1) / 2 && |blue| == |players| / 2
    ensures forall j :: 0 <= j < |red| ==> red[j] == SortByRank(players)[2 * j]
    ensures forall j :: 0 <= j < |blue| ==> blue[j] == SortByRank(players)[2 * j + 1]
    ensures multiset(blue) + multiset(red) == multiset(players)
  {
    var sorted := SortByRank(players);
    SortByRankPermutes(players);
    blue, red := [], [];
    var toBlue := false;
    var i := 0;
    while i < |sorted|
      invariant 0 <= i <= |sorted| && |red| + |blue| == i
      invariant if toBlue then |red| == |blue| + 1 else |red| == |blue|
      invariant forall j :: 0 <= j < |red| ==> red[j] == sorted[2 * j]
      invariant forall j :: 0 <= j < |blue| ==> blue[j] == sorted[2 * j + 1]
    {
      if toBlue {
        assert i == 2 * |blue| + 1;
        blue := blue + [sorted[i]];
      } else {
        assert i == 2 * |red|;
        red := red + [sorted[i]];
      }
      toBlue := !toBlue;
      i := i + 1;
    }
    assert if toBlue then |players| == 2 * |blue| + 1 else |players| == 2 * |blue|;
    DealtPermutes(sorted, blue, red);
  }

  /** s deals red the even positions and blue the odd ones. */
  predicate Interleaved(s: seq<LobbyPlayer>, blue: seq<LobbyPlayer>, red: seq<LobbyPlayer>) {
    && |red| + |blue| == |s| && (|red| == |blue| || |red| == |blue| + 1)
    && (forall j :: 0 <= j < |red| ==> red[j] == s[2 * j])
    && (forall j :: 0 <= j < |blue| ==> blue[j] == s[2 * j + 1])
  }

  /** Without its last player, a deal ending on Red is a deal of the rest. */
  lemma DealtLastRed(s: seq<LobbyPlayer>, blue: seq<LobbyPlayer>, red: seq<LobbyPlayer>)
    requires Interleaved(s, blue, red) && s != [] && |red| == |blue| + 1
    ensures Interleaved(s[..|s| - 1], blue, red[..|red| - 1])
    ensures multiset(s) == multiset(s[..|s| - 1]) + multiset{s[|s| - 1]}
    ensures multiset(red) == multiset(red[..|red| - 1]) + multiset{s[|s| - 1]}
  {
    var n := |s| - 1;
    assert s == s[..n] + [s[n]];
    assert red == red[..|red| - 1] + [s[n]];
  }

  /** Without its last player, a deal ending on Blue is a deal of the rest. */
  lemma DealtLastBlue(s: seq<LobbyPlayer>, blue: seq<LobbyPlayer>, red: seq<LobbyPlayer>)
    requires Interleaved(s, blue, red) && s != [] && |red| == |blue|
    ensures Interleaved(s[..|s| - 1], blue[..|blue| - 1], red)
    ensures multiset(s) == multiset(s[..|s| - 1]) + multiset{s[|s| - 1]}
    ensures multiset(blue) == multiset(blue[..|blue| - 1]) + multiset{s[|s| - 1]}
  {
    var n := |s| - 1;
    assert s == s[..n] + [s[n]];
    assert blue == blue[..|blue| - 1] + [s[n]];
  }

  /** The even positions and the odd positions of s together are the players of s. */
  lemma {:induction false} DealtPermutes(s: seq<LobbyPlayer>, blue: seq<LobbyPlayer>, red: seq<LobbyPlayer>)
    requires Interleaved(s, blue, red)
    ensures multiset(blue) + multiset(red) == multiset(s)
    decreases |s|
  {
    if s != [] {
      if |red| == |blue| + 1 {
        DealtLastRed(s, blue, red);
        DealtPermutes(s[..|s| - 1], blue, red[..|red| - 1]);
      } else {
        DealtLastBlue(s, blue, red);
        DealtPermutes(s[..|s| - 1], blue[..|blue| - 1], red);
      }
    }
  }

  /** The teams createBalancedTeams deals are the Balanced ones. */
  lemma DealtBalanced(players: seq<LobbyPlayer>, blue: seq<LobbyPlayer>, red: seq<LobbyPlayer>)
    requires |red| == (|players| + 1) / 2 && |blue| == |players| / 2
    requires forall j :: 0 <= j < |red| ==> red[j] == SortByRank(players)[2 * j]
    requires forall j :: 0 <= j < |blue| ==> blue[j] == SortByRank(players)[2 * j + 1]
    ensures Lineup(blue, red, {}) == Balanced(players)
  {
    assert blue == Balanced(players).blue;
    assert red == Balanced(players).red;
  }

  /** The first player of the sorted order, who goes to Red, has the lowest rank. */
  lemma LowestRankFirst(players: seq<LobbyPlayer>)
    requires |players| > 0
    ensures forall p :: p in players ==> SortByRank(players)[0].rank <= p.rank
  {
    SortByRankPermutes(players);
    SortByRankSorted(players);
    var s := SortByRank(players);
    forall p | p in players ensures s[0].rank <= p.rank {
      assert p in multiset(s);
      var m :| 0 <= m < |s| && s[m] == p;
      assert m == 0 || s[0].rank <= s[m].rank;
    }
  }

  // ---------------------------------------------------- Hero selections

  /** Both teams and the reserved concrete indices (selectedChampionIndices). */
  datatype Lineup = Lineup(blue: seq<LobbyPlayer>, red: seq<LobbyPlayer>, reserved: set<int>)

  function TeamOf(l: Lineup, team: Team): seq<LobbyPlayer> {
    if team == Blue then l.blue else l.red
  }

  /** The selections of a team, slot by slot. */
  function Picks(ps: seq<LobbyPlayer>): (s: seq<Option<Hero>>)
    ensures |s| == |ps| && forall i :: 0 <= i < |ps| ==> s[i] == ps[i].selectedHero
  {
    seq(|ps|, i requires 0 <= i < |ps| => ps[i].selectedHero)
  }

  /** All ten slots: Blue's, then Red's. */
  function AllPicks(l: Lineup): seq<Option<Hero>> {
    Picks(l.blue) + Picks(l.red)
  }

  /** The position of a team slot among all slots. */
  function Position(l: Lineup, team: Team, i: nat): nat {
    if team == Blue then i else |l.blue| + i
  }

  /** The concrete indices some slot holds. */
  function Held(picks: seq<Option<Hero>>): set<int> {
    set h | h in picks && h.Some? && h.value.Concrete? :: h.value.index
  }

  /** No concrete hero is held by two slots. */
  predicate Distinct(picks: seq<Option<Hero>>) {
    forall a, b :: 0 <= a < b < |picks| && picks[a].Some? && picks[a].value.Concrete? ==> picks[a] != picks[b]
  }

  /** The reserved set is exactly what the slots hold, and no hero is held twice. */
  predicate Consistent(l: Lineup) {
    l.reserved == Held(AllPicks(l)) && Distinct(AllPicks(l))
  }

  /** The weaker invariant the code keeps: every reserved index is held by some slot. */
  predicate ReservedHeld(l: Lineup) {
    l.reserved <= Held(AllPicks(l))
  }

  /** The index a selection holds in the reserved set, if any. */
  function Reservation(h: Option<Hero>): set<int> {
    if h.Some? && h.value.Concrete? then {h.value.index} else {}
  }

  function SetHero(l: Lineup, team: Team, i: nat, hero: Hero): (r: Lineup)
    requires i < |TeamOf(l, team)|
    ensures AllPicks(r) == AllPicks(l)[Position(l, team, i) := Some(hero)]
    ensures |r.blue| == |l.blue| && |r.red| == |l.red| && r.reserved == l.reserved
  {
    var r := if team == Blue then l.(blue := l.blue[i := l.blue[i].(selectedHero := Some(hero))])
             else l.(red := l.red[i := l.red[i].(selectedHero := Some(hero))]);
    assert AllPicks(r) == AllPicks(l)[Position(l, team, i) := Some(hero)];
    r
  }

  /**
   * trySelectHero as the code has it: the slot's old concrete index is
   * released first, and a taken index is rejected afterwards, so a
   * rejection still loses the old reservation.
   */
  function SelectAsWritten(l: Lineup, team: Team, i: nat, hero: Hero): (r: (bool, Lineup))
    requires i < |TeamOf(l, team)|
  {
    var released := l.reserved - Reservation(TeamOf(l, team)[i].selectedHero);
    if hero.Concrete? && hero.index in released then (false, l.(reserved := released))
    else (true, SetHero(l.(reserved := released + Reservation(Some(hero))), team, i, hero))
  }

  /** trySelectHero as intended: a rejection changes nothing. */
  function Select(l: Lineup, team: Team, i: nat, hero: Hero): (r: (bool, Lineup))
    requires i < |TeamOf(l, team)|
    ensures !r.0 ==> r.1 == l
    ensures r.0 ==> r.1 == SetHero(l, team, i, hero).(reserved := l.reserved - Reservation(TeamOf(l, team)[i].selectedHero) + Reservation(Some(hero)))
  {
    var current := TeamOf(l, team)[i].selectedHero;
    if hero.Concrete? && hero.index in l.reserved && current != Some(hero) then (false, l)
    else SelectAsWritten(l, team, i, hero)
  }

  /** The two agree on every accepted pick; they differ only in what a rejection leaves behind. */
  lemma SelectAgreesWithAsWritten(l: Lineup, team: Team, i: nat, hero: Hero)
    requires i < |TeamOf(l, team)|
    ensures Select(l, team, i, hero).0 == SelectAsWritten(l, team, i, hero).0
    ensures Select(l, team, i, hero).0 ==> Select(l, team, i, hero) == SelectAsWritten(l, team, i, hero)
  {
  }

  /** A random hero is never rejected and reserves nothing; reselecting one's own hero succeeds. */
  lemma SelectAccepts(l: Lineup, team: Team, i: nat, hero: Hero)
    requires i < |TeamOf(l, team)|
    ensures hero.Random? ==> Select(l, team, i, hero).0
    ensures hero.Random? ==> Select(l, team, i, hero).1.reserved <= l.reserved
    ensures TeamOf(l, team)[i].selectedHero == Some(hero) ==> Select(l, team, i, hero).0
  {
  }

  lemma HeldUpdate(p: seq<Option<Hero>>, k: nat, h: Hero)
    requires k < |p| && Distinct(p)
    ensures Held(p[k := Some(h)]) == Held(p) - Reservation(p[k]) + Reservation(Some(h))
  {
    var q := p[k := Some(h)];
    forall x ensures x in Held(q) <==> x in Held(p) - Reservation(p[k]) + Reservation(Some(h)) {
      if x in Held(q) {
        var g :| g in q && g.Some? && g.value.Concrete? && g.value.index == x;
        var m :| 0 <= m < |q| && q[m] == g;
        if m != k {
          assert p[m] == g;
          assert p[m] != p[k];
        }
      }
      if x in Held(p) - Reservation(p[k]) {
        var g :| g in p && g.Some? && g.value.Concrete? && g.value.index == x;
        var m :| 0 <= m < |p| && p[m] == g;
        assert m != k;
        assert q[m] == g;
      }
      if x in Reservation(Some(h)) {
        assert q[k] == Some(h);
      }
    }
  }

  /** Without distinctness, overwriting a slot still keeps every other held index held. */
  lemma HeldOverwrite(p: seq<Option<Hero>>, k: nat, h: Hero)
    requires k < |p|
    ensures Held(p) - Reservation(p[k]) + Reservation(Some(h)) <= Held(p[k := Some(h)])
  {
    var q := p[k := Some(h)];
    forall x | x in Held(p) - Reservation(p[k]) + Reservation(Some(h)) ensures x in Held(q) {
      if x in Reservation(Some(h)) {
        assert q[k] == Some(h);
      } else {
        var g :| g in p && g.Some? && g.value.Concrete? && g.value.index == x;
        var m :| 0 <= m < |p| && p[m] == g;
        assert m != k;
        assert q[m] == g;
      }
    }
  }

  lemma DistinctUpdate(p: seq<Option<Hero>>, k: nat, h: Hero)
    requires k < |p| && Distinct(p)
    requires h.Concrete? ==> h.index !in Held(p) - Reservation(p[k])
    ensures Distinct(p[k := Some(h)])
  {
    var q := p[k := Some(h)];
    forall a, b | 0 <= a < b < |q| && q[a].Some? && q[a].value.Concrete? ensures q[a] != q[b] {
      if a == k || b == k {
        var o := if a == k then b else a;
        if q[o].Some? && q[o].value.Concrete? {
          assert q[o] == p[o] && p[o] in p;
          assert p[o] != p[k];
        }
      }
    }
  }

  /** The intended selection keeps the reserved set equal to the held heroes, all distinct. */
  lemma SelectKeepsConsistent(l: Lineup, team: Team, i: nat, hero: Hero)
    requires i < |TeamOf(l, team)| && Consistent(l)
    ensures Consistent(Select(l, team, i, hero).1)
    ensures !Select(l, team, i, hero).0 <==> hero.Concrete? && hero.index in Held(AllPicks(l)) && TeamOf(l, team)[i].selectedHero != Some(hero)
  {
    var p := AllPicks(l);
    var k := Position(l, team, i);
    assert p[k] == TeamOf(l, team)[i].selectedHero;
    if Select(l, team, i, hero).0 {
      HeldUpdate(p, k, hero);
      DistinctUpdate(p, k, hero);
    }
  }

  /** As written, the reserved indices stay held after any pick, accepted or not. */
  lemma SelectAsWrittenKeepsReservedHeld(l: Lineup, team: Team, i: nat, hero: Hero)
    requires i < |TeamOf(l, team)| && ReservedHeld(l)
    ensures ReservedHeld(SelectAsWritten(l, team, i, hero).1)
  {
    var p := AllPicks(l);
    var k := Position(l, team, i);
    assert p[k] == TeamOf(l, team)[i].selectedHero;
    if SelectAsWritten(l, team, i, hero).0 {
      HeldOverwrite(p, k, hero);
    }
  }

  /**
   * As written, two picks can leave two slots with the same hero: Blue's
   * slot 0 holds hero 3 and slot 1 hero 5; slot 0 asks for 5 and is
   * rejected, but 3 is no longer reserved; slot 2 then gets 3 as well.
   */
  lemma SelectAsWrittenDuplicates(l: Lineup)
    requires Consistent(l) && |l.blue| >= 3
    requires l.blue[0].selectedHero == Some(Concrete(3)) && l.blue[1].selectedHero == Some(Concrete(5))
    requires l.blue[2].selectedHero == None
    ensures !SelectAsWritten(l, Blue, 0, Concrete(5)).0
    ensures SelectAsWritten(SelectAsWritten(l, Blue, 0, Concrete(5)).1, Blue, 2, Concrete(3)).0
    ensures !Distinct(AllPicks(SelectAsWritten(SelectAsWritten(l, Blue, 0, Concrete(5)).1, Blue, 2, Concrete(3)).1))
  {
    var p := AllPicks(l);
    assert p[0] == Some(Concrete(3)) && p[1] == Some(Concrete(5));
    assert 5 in Held(p);
    var l1 := SelectAsWritten(l, Blue, 0, Concrete(5)).1;
    assert l1.reserved == l.reserved - {3};
    assert l1.blue == l.blue;
    var l2 := SelectAsWritten(l1, Blue, 2, Concrete(3)).1;
    assert AllPicks(l2)[0] == Some(Concrete(3)) && AllPicks(l2)[2] == Some(Concrete(3));
  }

  /** The intended selection, in the same situation, keeps the heroes distinct. */
  lemma SelectNeverDuplicates(l: Lineup, team: Team, i: nat, hero: Hero)
    requires i < |TeamOf(l, team)| && Consistent(l)
    ensures Distinct(AllPicks(Select(l, team, i, hero).1))
  {
    SelectKeepsConsistent(l, team, i, hero);
  }

  // -------------------------------------------------------- Match result

  /** The values the random generator gives for one player: a hero index, kills, assists, deaths. */
  datatype Draw = Draw(hero: int, kills: int, assists: int, deaths: int)

  /** r.nextInt(NUM_HEROES), r.nextInt(31), r.nextInt(11), r.nextInt(31). */
  predicate IsDraw(d: Draw) {
    0 <= d.hero < NUM_HEROES && 0 <= d.kills <= 30 && 0 <= d.assists <= 10 && 0 <= d.deaths <= 30
  }

  predicate AllDraws(ds: seq<Draw>) {
    forall i :: 0 <= i < |ds| ==> IsDraw(ds[i])
  }

  /** The hero a player plays: its concrete selection, otherwise (random or none) the drawn one. */
  function PlayedHero(selected: Option<Hero>, drawn: int): (h: ConcreteHero)
    requires selected.Some? ==> IsHero(selected.value)
    requires 0 <= drawn < NUM_HEROES
    ensures selected.Some? && selected.value.Concrete? ==> h == selected.value
    ensures !(selected.Some? && selected.value.Concrete?) ==> h.index == drawn
  {
    if selected.Some? && selected.value.Concrete? then selected.value else Concrete(drawn)
  }

  function PlayTeam(ps: seq<LobbyPlayer>, ds: seq<Draw>): (out: seq<SummaryPlayer>)
    requires AllLobbyPlayers(ps) && AllDraws(ds) && |ds| == |ps|
  {
    seq(|ps|, i requires 0 <= i < |ps| =>
      SummaryPlayer(ps[i].username, PlayedHero(ps[i].selectedHero, ds[i].hero), ds[i].kills, ds[i].assists, ds[i].deaths))
  }

  /** One team's part of the summary: same players in the same order, concrete picks kept, counts in range. */
  predicate PlayedAs(ps: seq<LobbyPlayer>, out: seq<SummaryPlayer>)
  {
    |out| == |ps| &&
    forall i :: 0 <= i < |ps| ==>
      out[i].username == ps[i].username && IsSummaryPlayer(out[i]) &&
      (ps[i].selectedHero.Some? && ps[i].selectedHero.value.Concrete? ==> out[i].hero == ps[i].selectedHero.value) &&
      out[i].kills <= 30 && out[i].assists <= 10 && out[i].deaths <= 30
  }

  lemma PlayTeamIsPlayed(ps: seq<LobbyPlayer>, ds: seq<Draw>)
    requires AllLobbyPlayers(ps) && AllDraws(ds) && |ds| == |ps|
    ensures PlayedAs(ps, PlayTeam(ps, ds))
  {
    var out := PlayTeam(ps, ds);
    forall i | 0 <= i < |ps| ensures out[i].username == ps[i].username && IsSummaryPlayer(out[i]) {
      assert IsLobbyPlayer(ps[i]) && IsDraw(ds[i]);
    }
  }

  /** The usernames of a team, in team order. */
  function Usernames(ps: seq<LobbyPlayer>): (us: seq<string>)
    ensures |us| == |ps| && forall i :: 0 <= i < |ps| ==> us[i] == ps[i].username
  {
    if ps == [] then [] else Usernames(ps[..|ps| - 1]) + [ps[|ps| - 1].username]
  }

  /** The usernames of both teams. */
  function Members(l: Lineup): (us: set<string>)
    ensures forall u :: u in us <==> u in Usernames(l.blue) || u in Usernames(l.red)
  {
    set u | u in Usernames(l.blue) + Usernames(l.red)
  }

  /** A team's TeamInfo: each player's username and rank; another size than TEAM_SIZE throws. */
  function TeamInfoFor(l: Lineup, team: Team): (r: Result<TeamInfo>)
    ensures r.Ok? <==> |TeamOf(l, team)| == TEAM_SIZE
    ensures r.Ok? ==> r.value.team == team && |r.value.players| == TEAM_SIZE
    ensures r.Ok? ==> forall i :: 0 <= i < TEAM_SIZE ==>
      r.value.players[i] == TeamInfoPlayer(TeamOf(l, team)[i].username, TeamOf(l, team)[i].rank)
  {
    var ps := TeamOf(l, team);
    NewTeamInfo(Some(team), seq(|ps|, i requires 0 <= i < |ps| => TeamInfoPlayer(ps[i].username, ps[i].rank)))
  }

  /** The first position of the username in Blue, else in Red; in neither team, IllegalArgumentException. */
  function PlayerIndex(l: Lineup, username: string): (r: Result<nat>)
    ensures r.Fail? <==> username !in Usernames(l.blue) && username !in Usernames(l.red)
    ensures r.Fail? ==> r.exc == IllegalArgument
    ensures r.Ok? && username in Usernames(l.blue) ==>
      r.value < |l.blue| && l.blue[r.value].username == username &&
      forall j :: 0 <= j < r.value ==> l.blue[j].username != username
    ensures r.Ok? && username !in Usernames(l.blue) ==>
      r.value < |l.red| && l.red[r.value].username == username &&
      forall j :: 0 <= j < r.value ==> l.red[j].username != username
  {
    var ub := Usernames(l.blue);
    var ur := Usernames(l.red);
    if username in ub then Ok(IndexOf(ub, username))
    else if username in ur then Ok(IndexOf(ur, username))
    else Fail(IllegalArgument)
  }

  /**
   * playMatch, with the random values as inputs: the winner is
   * Team.fromIndex of its draw, and each team's summary keeps its players
   * in order with their concrete picks.
   */
  function Play(l: Lineup, winnerDraw: int, blueDraws: seq<Draw>, redDraws: seq<Draw>): (m: MatchSummary)
    requires AllLobbyPlayers(l.blue) && AllLobbyPlayers(l.red)
    requires 0 <= winnerDraw < 2 && AllDraws(blueDraws) && AllDraws(redDraws)
    requires |blueDraws| == |l.blue| && |redDraws| == |l.red|
    ensures m.winner == (if winnerDraw == 0 then Blue else Red)
    ensures PlayedAs(l.blue, m.blue) && PlayedAs(l.red, m.red)
  {
    PlayTeamIsPlayed(l.blue, blueDraws);
    PlayTeamIsPlayed(l.red, redDraws);
    MatchSummary(TeamFromIndex(winnerDraw).value, PlayTeam(l.blue, blueDraws), PlayTeam(l.red, redDraws))
  }

  /** Valid players with no hero yet make a consistent lineup with nothing reserved. */
  lemma FreshLineupConsistent(blue: seq<LobbyPlayer>, red: seq<LobbyPlayer>)
    requires forall k :: 0 <= k < |blue| ==> blue[k].selectedHero.None?
    requires forall k :: 0 <= k < |red| ==> red[k].selectedHero.None?
    ensures Consistent(Lineup(blue, red, {}))
  {
    var lu := Lineup(blue, red, {});
    var picks := AllPicks(lu);
    forall a | 0 <= a < |picks| ensures picks[a].None? {
      if a < |blue| {
        assert picks[a] == Picks(blue)[a];
      } else {
        assert picks[a] == Picks(red)[a - |blue|];
      }
    }
    assert Held(picks) == {} by {
      forall h | h in picks ensures h.None? {
        var k :| 0 <= k < |picks| && picks[k] == h;
      }
    }
  }

  /** Teams drawn from players with no hero yet: valid players, nothing held, so nothing reserved is consistent. */
  lemma FreshLineup(b: seq<LobbyPlayer>, r: seq<LobbyPlayer>, players: seq<LobbyPlayer>)
    requires AllLobbyPlayers(players)
    requires forall i :: 0 <= i < |players| ==> players[i].selectedHero.None?
    requires multiset(b) + multiset(r) == multiset(players)
    ensures AllLobbyPlayers(b) && AllLobbyPlayers(r)
    ensures ReservedHeld(Lineup(b, r, {})) && Consistent(Lineup(b, r, {}))
  {
    forall j | 0 <= j < |b| ensures b[j] in players && b[j].selectedHero.None? {
      assert b[j] in multiset(b);
      assert b[j] in multiset(b) + multiset(r);
      assert b[j] in multiset(players);
    }
    forall j | 0 <= j < |r| ensures r[j] in players && r[j].selectedHero.None? {
      assert r[j] in multiset(r);
      assert r[j] in multiset(b) + multiset(r);
      assert r[j] in multiset(players);
    }
    FreshLineupConsistent(b, r);
  }

  class Lobby {
    var blue: seq<LobbyPlayer>
    var red: seq<LobbyPlayer>
    var reserved: set<int>
    var timerCanceled: bool

    function Current(): Lineup
      reads this
    {
      Lineup(blue, red, reserved)
    }

    /** Every player is a valid Lobby.Player, and every reserved index is held by a slot. */
    ghost predicate Valid()
      reads this
    {
      AllLobbyPlayers(blue) && AllLobbyPlayers(red) && ReservedHeld(Current())
    }

    /** The constructor: balanced teams, nothing reserved, timer running. */
    constructor (players: seq<LobbyPlayer>)
      requires AllLobbyPlayers(players)
      requires forall i :: 0 <= i < |players| ==> players[i].selectedHero.None?
      ensures Valid() && Consistent(Current()) && reserved == {} && !timerCanceled
      ensures |red| == (|players| + 1) / 2 && |blue| == |players| / 2
      ensures forall j :: 0 <= j < |red| ==> red[j] == SortByRank(players)[2 * j]
      ensures forall j :: 0 <= j < |blue| ==> blue[j] == SortByRank(players)[2 * j + 1]
      ensures multiset(blue) + multiset(red) == multiset(players)
    {
      var b, r := CreateBalancedTeams(players);
      FreshLineup(b, r, players);
      blue, red := b, r;
      reserved := {};
      timerCanceled := false;
    }

    /** getTeamPlayerUsernames: the team's usernames in team order. */
    function TeamPlayerUsernames(team: Team): (us: seq<string>)
      reads this
      ensures |us| == |TeamOf(Current(), team)|
      ensures forall i :: 0 <= i < |us| ==> us[i] == TeamOf(Current(), team)[i].username
    {
      Usernames(TeamOf(Current(), team))
    }

    /** getAllPlayerUsernames: the usernames of both teams. */
    function AllPlayerUsernames(): (us: set<string>)
      reads this
      ensures forall u :: u in us <==> u in TeamPlayerUsernames(Blue) || u in TeamPlayerUsernames(Red)
    {
      Members(Current())
    }

    /** getTeamInfo: the team with each player's username and rank; another size than TEAM_SIZE throws. */
    function TeamInfoOf(team: Team): (r: Result<TeamInfo>)
      reads this
      ensures r.Ok? <==> |TeamOf(Current(), team)| == TEAM_SIZE
      ensures r.Ok? ==> r.value.team == team && |r.value.players| == TEAM_SIZE
      ensures r.Ok? ==> forall i :: 0 <= i < TEAM_SIZE ==>
        r.value.players[i] == TeamInfoPlayer(TeamOf(Current(), team)[i].username, TeamOf(Current(), team)[i].rank)
    {
      TeamInfoFor(Current(), team)
    }

    /**
     * getTeamPlayerIndex: the first position of the username in Blue, else
     * in Red; a player in neither team throws IllegalArgumentException.
     */
    function TeamPlayerIndex(username: string): (r: Result<nat>)
      reads this
      ensures r.Fail? <==> username !in TeamPlayerUsernames(Blue) && username !in TeamPlayerUsernames(Red)
      ensures r.Fail? ==> r.exc == IllegalArgument
      ensures r.Ok? && username in TeamPlayerUsernames(Blue) ==>
        r.value < |blue| && blue[r.value].username == username && forall j :: 0 <= j < r.value ==> blue[j].username != username
      ensures r.Ok? && username !in TeamPlayerUsernames(Blue) ==>
        r.value < |red| && red[r.value].username == username && forall j :: 0 <= j < r.value ==> red[j].username != username
    {
      PlayerIndex(Current(), username)
    }

    /** timerWasCanceled. */
    function TimerWasCanceled(): bool
      reads this
    {
      timerCanceled
    }

    /** cancelTimer: the flag is set for good. */
    method CancelTimer()
      modifies this
      ensures timerCanceled && blue == old(blue) && red == old(red) && reserved == old(reserved)
    {
      timerCanceled := true;
    }

    /**
     * didEveryPlayerSelectAHero: Blue then Red, slots 0 to TEAM_SIZE-1;
     * true iff every one holds a hero. A team with fewer slots throws
     * IndexOutOfBoundsException when reached.
     */
    method DidEveryPlayerSelectAHero() returns (r: Result<bool>)
      ensures TEAM_SIZE <= |blue| && TEAM_SIZE <= |red| ==> r.Ok?
      ensures r.Fail? ==> r.exc == IndexOutOfBounds
      ensures r == Ok(true) <==> TEAM_SIZE <= |blue| && TEAM_SIZE <= |red| && AllSelected(blue) && AllSelected(red)
    {
      r := ScanTeam(blue);
      if r == Ok(true) {
        r := ScanTeam(red);
      }
    }

    /**
     * trySelectHero: the index must be a player index
     * (IllegalArgumentException) of a slot of the team
     * (IndexOutOfBoundsException); then the pick is made as SelectAsWritten
     * says, releasing the slot's old reservation even when rejected.
     */
    method TrySelectHero(team: Team, index: int, hero: Hero) returns (r: Result<bool>)
      requires Valid() && IsHero(hero)
      modifies this
      ensures Valid() && timerCanceled == old(timerCanceled)
      ensures !(0 <= index < TEAM_SIZE) ==> r == Fail(IllegalArgument) && Current() == old(Current())
      ensures 0 <= index < TEAM_SIZE && index >= |TeamOf(old(Current()), team)| ==>
        r == Fail(IndexOutOfBounds) && Current() == old(Current())
      ensures 0 <= index < |TeamOf(old(Current()), team)| && index < TEAM_SIZE ==>
        r == Ok(SelectAsWritten(old(Current()), team, index, hero).0)
        && Current() == SelectAsWritten(old(Current()), team, index, hero).1
    {
      if !(0 <= index < TEAM_SIZE) {
        return Fail(IllegalArgument);
      }
      var l := Current();
      if index >= |TeamOf(l, team)| {
        return Fail(IndexOutOfBounds);
      }
      SelectAsWrittenKeepsReservedHeld(l, team, index, hero);
      var s := SelectAsWritten(l, team, index, hero);
      assert AllLobbyPlayers(s.1.blue) && AllLobbyPlayers(s.1.red);
      blue, red, reserved := s.1.blue, s.1.red, s.1.reserved;
      r := Ok(s.0);
    }

    /** playMatch: Play on this lobby's teams. */
    function PlayMatch(winnerDraw: int, blueDraws: seq<Draw>, redDraws: seq<Draw>): (m: MatchSummary)
      reads this
      requires Valid()
      requires 0 <= winnerDraw < 2 && AllDraws(blueDraws) && AllDraws(redDraws)
      requires |blueDraws| == |blue| && |redDraws| == |red|
      ensures m.winner == (if winnerDraw == 0 then Blue else Red)
      ensures PlayedAs(blue, m.blue) && PlayedAs(red, m.red)
    {
      Play(Current(), winnerDraw, blueDraws, redDraws)
    }
  }

  /** Every one of the first TEAM_SIZE slots holds a hero. */
  predicate AllSelected(ps: seq<LobbyPlayer>) {
    forall i :: 0 <= i < TEAM_SIZE && i < |ps| ==> ps[i].selectedHero.Some?
  }

  /** One team's pass of didEveryPlayerSelectAHero. */
  method ScanTeam(ps: seq<LobbyPlayer>) returns (r: Result<bool>)
    ensures TEAM_SIZE <= |ps| ==> r.Ok?
    ensures r.Fail? ==> r.exc == IndexOutOfBounds
    ensures r == Ok(true) <==> TEAM_SIZE <= |ps| && AllSelected(ps)
  {
    var i := 0;
    while i < TEAM_SIZE
      invariant 0 <= i <= TEAM_SIZE && i <= |ps|
      invariant forall j :: 0 <= j < i ==> ps[j].selectedHero.Some?
    {
      if i >= |ps| {
        return Fail(IndexOutOfBounds);
      }
      if ps[i].selectedHero.None? {
        return Ok(false);
      }
      i := i + 1;
    }
    return Ok(true);
  }

  /** List.indexOf of an element that is present: its first position. */
  function IndexOf(s: seq<string>, x: string): (i: nat)
    requires x in s
    ensures i < |s| && s[i] == x && forall j :: 0 <= j < i ==> s[j] != x
  {
    if s[0] == x then 0 else 1 + IndexOf(s[1..], x)
  }
}
