/** Capital projects: pending projects count down their lead time once a year and
    open, with their one-off effect on the airport, when it runs out. */
module Projects {

  const CargoHangar: string := "Cargo Hangar"
  const RetailExpansion: string := "Non-Aero Retail Expansion"
  /** Square metres of retail space a retail expansion adds. */
  const RetailFloorSpace: real := 1000.0
  /** Opened infrastructure is depreciated over 25 years. */
  const DepreciationYears: real := 25.0

  /** A pending capital project. What `increase` adds when the project opens depends
      on the name: cargo tonnes for the Cargo Hangar, square metres of retail space
      for the retail expansion, passenger capacity for every other project. */
  datatype Project = Project(name: string, cost: real, increase: real, leadTime: int)

  /** Malformed projects (negative cost or effect) are outside the model. */
  predicate Nonnegative(p: Project) { p.cost >= 0.0 && p.increase >= 0.0 }

  predicate AllNonnegative(ps: seq<Project>)
  {
    forall i :: 0 <= i < |ps| ==> Nonnegative(ps[i])
  }

  /** What opening projects adds to the airport. */
  datatype Effects = Effects(cargoTonnes: real, nonAeroSqm: real, capacityPax: real, assetValue: real, depreciation: real)
  {
    function Plus(e: Effects): Effects
    {
      Effects(cargoTonnes + e.cargoTonnes, nonAeroSqm + e.nonAeroSqm, capacityPax + e.capacityPax,
              assetValue + e.assetValue, depreciation + e.depreciation)
    }
  }

  lemma PlusSwap(a: Effects, b: Effects, c: Effects)
    ensures a.Plus(b).Plus(c) == a.Plus(c).Plus(b)
    ensures a.Plus(b).Plus(c) == a.Plus(b.Plus(c))
  {
  }

  const NoEffect: Effects := Effects(0.0, 0.0, 0.0, 0.0, 0.0)

  /** The effect of opening one project. The Cargo Hangar is built by a third party:
      it adds cargo only, and neither asset value nor depreciation. */
  function EffectOf(p: Project): (e: Effects)
    ensures Nonnegative(p) ==> e.capacityPax >= 0.0 && e.assetValue >= 0.0
    ensures p.name == CargoHangar ==> e == NoEffect.(cargoTonnes := p.increase)
    ensures p.name != CargoHangar ==> e.assetValue == p.cost && e.depreciation == p.cost / DepreciationYears
    ensures p.name == RetailExpansion ==> e.nonAeroSqm == p.increase && e.capacityPax == 0.0 && e.cargoTonnes == 0.0
    ensures p.name != CargoHangar && p.name != RetailExpansion ==>
              e.capacityPax == p.increase && e.nonAeroSqm == 0.0 && e.cargoTonnes == 0.0
  {
    if p.name == CargoHangar then
      Effects(p.increase, 0.0, 0.0, 0.0, 0.0)
    else if p.name == RetailExpansion then
      Effects(0.0, p.increase, 0.0, p.cost, p.cost / DepreciationYears)
    else
      Effects(0.0, 0.0, p.increase, p.cost, p.cost / DepreciationYears)
  }

  /** One year less to go. */
  function Tick(p: Project): Project { p.(leadTime := p.leadTime - 1) }

  /** The projects still pending after a maturation round, and what the opened ones add. */
  datatype Maturation = Maturation(pending: seq<Project>, gained: Effects)

  /** One maturation round, in list order: every project's lead time drops by one; a
      project whose lead time is then at most zero opens and leaves the list. What
      opens adds a 25th of its asset value to depreciation, and nothing opens while
      every project has more than a year to go. */
  function Mature(ps: seq<Project>): (r: Maturation)
    ensures r.gained.depreciation == r.gained.assetValue / DepreciationYears
    ensures (forall i :: 0 <= i < |ps| ==> ps[i].leadTime > 1) ==> r.gained == NoEffect && |r.pending| == |ps|
  {
    if ps == [] then Maturation([], NoEffect)
    else
      var m := Mature(ps[..|ps| - 1]);
      var p := Tick(ps[|ps| - 1]);
      if p.leadTime <= 0 then Maturation(m.pending, m.gained.Plus(EffectOf(p)))
      else Maturation(m.pending + [p], m.gained)
  }

  /** Extending the list by one project extends the round by that project's step. */
  lemma MatureSnoc(ps: seq<Project>, i: nat)
    requires i < |ps|
    ensures var m := Mature(ps[..i]);
            var p := Tick(ps[i]);
            Mature(ps[..i + 1]) == if p.leadTime <= 0 then Maturation(m.pending, m.gained.Plus(EffectOf(p)))
                                   else Maturation(m.pending + [p], m.gained)
  {
    assert ps[..i + 1][..i] == ps[..i];
  }

  /** Removing the next unvisited project from a list that is the pending prefix
      followed by the projects still to visit. */
  lemma RemoveNext(pending: seq<Project>, ps: seq<Project>, i: nat)
    requires i < |ps|
    ensures var s := pending + ps[i..];
            s[|pending|] == ps[i] && s[..|pending|] + s[|pending| + 1..] == pending + ps[i + 1..]
  {
    var s := pending + ps[i..];
    assert s[..|pending|] == pending;
    assert s[|pending| + 1..] == ps[i + 1..];
  }

  /** Replacing the next unvisited project by its updated version extends the prefix. */
  lemma ReplaceNext(pending: seq<Project>, ps: seq<Project>, i: nat, p: Project)
    requires i < |ps|
    ensures (pending + ps[i..])[|pending| := p] == (pending + [p]) + ps[i + 1..]
  {
    var s := (pending + ps[i..])[|pending| := p];
    var r := (pending + [p]) + ps[i + 1..];
    assert |s| == |r|;
    forall k | 0 <= k < |s| ensures s[k] == r[k] {
      if k > |pending| { assert s[k] == ps[i..][k - |pending|] == ps[i + k - |pending|]; }
    }
  }

  /** Every project still pending after a round came from one a year further out
      and still has time to go. */
  lemma {:induction false} MaturePending(ps: seq<Project>)
    ensures |Mature(ps).pending| <= |ps|
    ensures forall q :: q in Mature(ps).pending ==> q.leadTime > 0 && q.(leadTime := q.leadTime + 1) in ps
  {
    if ps != [] {
      var init := ps[..|ps| - 1];
      var last := ps[|ps| - 1];
      MaturePending(init);
      var m := Mature(init);
      var p := Tick(last);
      assert p.(leadTime := p.leadTime + 1) == last;
      forall q | q in m.pending ensures q.(leadTime := q.leadTime + 1) in ps {
        var w := q.(leadTime := q.leadTime + 1);
        assert w in init;
        var k :| 0 <= k < |init| && init[k] == w;
        assert ps[k] == w;
      }
    }
  }

  /** Conversely, every project with more than a year to go stays pending, one year
      nearer. */
  lemma {:induction false} MatureKeeps(ps: seq<Project>, i: nat)
    requires i < |ps| && ps[i].leadTime > 1
    ensures Tick(ps[i]) in Mature(ps).pending
  {
    var init := ps[..|ps| - 1];
    if i < |ps| - 1 {
      assert init[i] == ps[i];
      MatureKeeps(init, i);
    }
  }

  /** A round keeps pending projects well-formed, and what opens never takes away
      capacity or asset value. */
  lemma {:induction false} MatureNonnegative(ps: seq<Project>)
    requires AllNonnegative(ps)
    ensures AllNonnegative(Mature(ps).pending)
    ensures Mature(ps).gained.capacityPax >= 0.0 && Mature(ps).gained.assetValue >= 0.0
  {
    if ps != [] {
      var init := ps[..|ps| - 1];
      var last := ps[|ps| - 1];
      assert AllNonnegative(init) by {
        forall i | 0 <= i < |init| ensures Nonnegative(init[i]) { assert init[i] == ps[i]; }
      }
      MatureNonnegative(init);
      var m := Mature(init);
      var p := Tick(last);
      assert Nonnegative(last);
      if p.leadTime > 0 {
        var ks := m.pending + [p];
        forall i | 0 <= i < |ks| ensures Nonnegative(ks[i]) {
          if i < |m.pending| { assert ks[i] == m.pending[i]; }
        }
      }
    }
  }

  /** Number of Cargo Hangars among the given projects. */
  function CountHangars(ps: seq<Project>): nat
  {
    if ps == [] then 0
    else CountHangars(ps[..|ps| - 1]) + (if ps[|ps| - 1].name == CargoHangar then 1 else 0)
  }

  /** The effects gained over n consecutive maturation rounds. */
  function Rounds(ps: seq<Project>, n: nat): Effects
    decreases n
  {
    if n == 0 then NoEffect
    else
      var m := Mature(ps);
      m.gained.Plus(Rounds(m.pending, n - 1))
  }

  /** A project opens within n rounds exactly when n >= 1 and its lead time is at most n. */
  predicate OpensWithin(p: Project, n: nat) { n >= 1 && p.leadTime <= n }

  /** The effects of the projects that open within n rounds, each counted once. */
  function DueEffects(ps: seq<Project>, n: nat): Effects
  {
    if ps == [] then NoEffect
    else
      var p := ps[|ps| - 1];
      DueEffects(ps[..|ps| - 1], n).Plus(if OpensWithin(p, n) then EffectOf(p) else NoEffect)
  }

  lemma {:induction false} NothingDueAtStart(ps: seq<Project>)
    ensures DueEffects(ps, 0) == NoEffect
  {
    if ps != [] { NothingDueAtStart(ps[..|ps| - 1]); }
  }

  /** Ageing a project does not change what it adds when it opens. */
  lemma TickKeepsEffect(p: Project)
    ensures EffectOf(Tick(p)) == EffectOf(p)
  {
  }

  /** The step of DueAfterOneRound for a last project that opens in this round. */
  lemma DueWhenOpening(ps: seq<Project>, n: nat)
    requires n >= 1 && ps != [] && Tick(ps[|ps| - 1]).leadTime <= 0
    requires var m := Mature(ps[..|ps| - 1]);
             DueEffects(ps[..|ps| - 1], n) == m.gained.Plus(DueEffects(m.pending, n - 1))
    ensures DueEffects(ps, n) == Mature(ps).gained.Plus(DueEffects(Mature(ps).pending, n - 1))
  {
    var last := ps[|ps| - 1];
    var m := Mature(ps[..|ps| - 1]);
    var d := DueEffects(m.pending, n - 1);
    TickKeepsEffect(last);
    assert OpensWithin(last, n);
    assert Mature(ps) == Maturation(m.pending, m.gained.Plus(EffectOf(last)));
    assert DueEffects(ps, n) == m.gained.Plus(d).Plus(EffectOf(last));
    PlusSwap(m.gained, d, EffectOf(last));
  }

  /** The step of DueAfterOneRound for a last project that stays pending. */
  lemma DueWhenPending(ps: seq<Project>, n: nat)
    requires n >= 1 && ps != [] && Tick(ps[|ps| - 1]).leadTime > 0
    requires var m := Mature(ps[..|ps| - 1]);
             DueEffects(ps[..|ps| - 1], n) == m.gained.Plus(DueEffects(m.pending, n - 1))
    ensures DueEffects(ps, n) == Mature(ps).gained.Plus(DueEffects(Mature(ps).pending, n - 1))
  {
    var last := ps[|ps| - 1];
    var t := Tick(last);
    var m := Mature(ps[..|ps| - 1]);
    var d := DueEffects(m.pending, n - 1);
    var ks := m.pending + [t];
    assert ks[..|ks| - 1] == m.pending;
    TickKeepsEffect(last);
    assert OpensWithin(t, n - 1) == OpensWithin(last, n);
    var e := if OpensWithin(last, n) then EffectOf(last) else NoEffect;
    assert DueEffects(ks, n - 1) == d.Plus(e);
    assert Mature(ps) == Maturation(ks, m.gained);
    assert DueEffects(ps, n) == m.gained.Plus(d).Plus(e);
    PlusSwap(m.gained, d, e);
  }

  /** What is due within n rounds is what opens in the first round plus what is due
      within n - 1 further rounds among the projects still pending. */
  lemma {:induction false} DueAfterOneRound(ps: seq<Project>, n: nat)
    requires n >= 1
    ensures DueEffects(ps, n) == Mature(ps).gained.Plus(DueEffects(Mature(ps).pending, n - 1))
  {
    if ps == [] {
      NothingDueAtStart([]);
    } else {
      DueAfterOneRound(ps[..|ps| - 1], n);
      if Tick(ps[|ps| - 1]).leadTime <= 0 {
        DueWhenOpening(ps, n);
      } else {
        DueWhenPending(ps, n);
      }
    }
  }

  /** Over any number of rounds, every project's effect is applied exactly once if it
      is due by then (the round its lead time runs out, or the first round when it is
      already at most one), and not at all otherwise. */
  lemma {:induction false} AppliedExactlyOnce(ps: seq<Project>, n: nat)
    decreases n
    ensures Rounds(ps, n) == DueEffects(ps, n)
  {
    if n == 0 {
      NothingDueAtStart(ps);
    } else {
      AppliedExactlyOnce(Mature(ps).pending, n - 1);
      DueAfterOneRound(ps, n);
    }
  }
}
