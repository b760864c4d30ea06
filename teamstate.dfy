/**
 * mm.client.common.data.TeamState: the client's view of its own team in a
 * lobby, namely the TeamInfo it was given and the hero each of the
 * TEAM_SIZE players has selected so far (None is null).
 */
module TeamStates {
  import opened Wrappers
  import opened Config
  import opened Validation
  import opened Data

  /** Whether some slot holds exactly this hero (List.contains with ConcreteHero.equals). */
  predicate Taken(selected: seq<Option<Hero>>, h: Hero) {
    Some(h) in selected
  }

  class TeamState {
    const info: TeamInfo
    var selectedHeroes: seq<Option<Hero>>

    ghost predicate Valid()
      reads this
    {
      |selectedHeroes| == TEAM_SIZE
    }

    /** The constructor: TEAM_SIZE empty slots. */
    constructor (info: TeamInfo)
      ensures Valid() && this.info == info
      ensures forall i :: 0 <= i < TEAM_SIZE ==> selectedHeroes[i].None?
    {
      this.info := info;
      var slots: seq<Option<Hero>> := [];
      var i := 0;
      while i < TEAM_SIZE
        invariant 0 <= i <= TEAM_SIZE && |slots| == i
        invariant forall j :: 0 <= j < i ==> slots[j].None?
      {
        slots := slots + [None];
        i := i + 1;
      }
      selectedHeroes := slots;
    }

    /** getInfo. */
    function GetInfo(): TeamInfo {
      info
    }

    /**
     * getUnselectedHeroes: the concrete heroes 0 .. NUM_HEROES-1, in
     * ascending order, without those some slot holds; empty and random
     * slots remove nothing.
     */
    method GetUnselectedHeroes() returns (heroes: seq<Hero>)
      ensures Ascending(heroes)
      ensures forall a :: 0 <= a < |heroes| ==> heroes[a].Concrete? && 0 <= heroes[a].index < NUM_HEROES
      ensures forall k :: 0 <= k < NUM_HEROES ==> (Concrete(k) in heroes <==> !Taken(selectedHeroes, Concrete(k)))
    {
      var all: seq<Hero> := [];
      var i := 0;
      while i < NUM_HEROES
        invariant 0 <= i <= NUM_HEROES && |all| == i
        invariant forall j :: 0 <= j < i ==> all[j] == Concrete(j)
      {
        all := all + [Concrete(i)];
        i := i + 1;
      }
      heroes := RemoveAll(all, selectedHeroes);
      UnselectedMembers(all, selectedHeroes);
      UnselectedAscending(all, selectedHeroes);
      forall k | 0 <= k < NUM_HEROES ensures Concrete(k) in all {
        assert all[k] == Concrete(k);
      }
      forall a | 0 <= a < |heroes| ensures heroes[a].Concrete? && 0 <= heroes[a].index < NUM_HEROES {
        assert heroes[a] in all;
        var m :| 0 <= m < |all| && all[m] == heroes[a];
      }
    }

    /** getSelectedHero: an index outside [0, TEAM_SIZE) throws IllegalArgumentException. */
    function GetSelectedHero(playerIndex: int): (r: Result<Option<Hero>>)
      reads this
      requires Valid()
      ensures r.Ok? <==> 0 <= playerIndex < TEAM_SIZE
      ensures r.Ok? ==> r.value == selectedHeroes[playerIndex]
      ensures r.Fail? ==> r.exc == IllegalArgument
    {
      var i :- ValidatePlayerIndex(playerIndex);
      Ok(selectedHeroes[i])
    }

    /** setSelectedHero: List.set, which throws outside the list; only that slot changes. */
    method SetSelectedHero(playerIndex: int, hero: Option<Hero>) returns (o: Outcome)
      requires Valid()
      modifies this
      ensures Valid()
      ensures o.Pass? <==> 0 <= playerIndex < TEAM_SIZE
      ensures o.Throw? ==> o.exc == IndexOutOfBounds && selectedHeroes == old(selectedHeroes)
      ensures o.Pass? ==> selectedHeroes == old(selectedHeroes)[playerIndex := hero]
    {
      if !(0 <= playerIndex < |selectedHeroes|) {
        return Throw(IndexOutOfBounds);
      }
      selectedHeroes := selectedHeroes[playerIndex := hero];
      o := Pass;
    }
  }

  /** Concrete heroes in strictly ascending index order. */
  predicate Ascending(hs: seq<Hero>) {
    (forall a :: 0 <= a < |hs| ==> hs[a].Concrete?) &&
    forall a, b :: 0 <= a < b < |hs| ==> hs[a].index < hs[b].index
  }

  /** The elements of xs, in order, that no slot holds. */
  function Unselected(xs: seq<Hero>, selected: seq<Option<Hero>>): seq<Hero> {
    if xs == [] then []
    else Unselected(xs[..|xs| - 1], selected) + (if Taken(selected, xs[|xs| - 1]) then [] else [xs[|xs| - 1]])
  }

  /** An element is kept exactly when it is in xs and no slot holds it. */
  lemma {:induction false} UnselectedMembers(xs: seq<Hero>, selected: seq<Option<Hero>>)
    ensures forall h :: h in Unselected(xs, selected) <==> h in xs && !Taken(selected, h)
  {
    if xs != [] {
      var init := xs[..|xs| - 1];
      UnselectedMembers(init, selected);
      assert xs == init + [xs[|xs| - 1]];
    }
  }

  /** Leaving elements out keeps an ascending list ascending. */
  lemma {:induction false} UnselectedAscending(xs: seq<Hero>, selected: seq<Option<Hero>>)
    requires Ascending(xs)
    ensures Ascending(Unselected(xs, selected))
  {
    if xs != [] {
      var init := xs[..|xs| - 1];
      var x := xs[|xs| - 1];
      UnselectedAscending(init, selected);
      UnselectedMembers(init, selected);
      var u := Unselected(init, selected);
      forall a | 0 <= a < |u| ensures u[a].index < x.index {
        assert u[a] in init;
        var m :| 0 <= m < |init| && init[m] == u[a];
        assert xs[m] == u[a];
      }
    }
  }

  /** List.removeAll: one pass over xs keeping the heroes no slot holds. */
  method RemoveAll(xs: seq<Hero>, selected: seq<Option<Hero>>) returns (r: seq<Hero>)
    ensures r == Unselected(xs, selected)
  {
    r := [];
    var i := 0;
    while i < |xs|
      invariant 0 <= i <= |xs|
      invariant r == Unselected(xs[..i], selected)
    {
      assert xs[..i + 1][..i] == xs[..i];
      if !Taken(selected, xs[i]) {
        r := r + [xs[i]];
      }
      i := i + 1;
    }
    assert xs[..i] == xs;
  }
}
