/// How many draws each part of the construction takes, read off what it produced, and the proof
/// that the mixer state each part leaves behind is its starting state moved on by exactly that
/// many draws.
module DrawCounts {
  import opened Mixer
  import opened Generation

  /** The draws one planet takes: eleven for its attributes, then one per moon. */
  function PlanetDraws(p: Planet): nat
  {
    11 + |p.moons|
  }

  /** The draws a sequence of planets takes, in total. */
  function PlanetsDraws(ps: seq<Planet>): nat
  {
    if ps == [] then 0 else PlanetDraws(ps[0]) + PlanetsDraws(ps[1..])
  }

  /**
   * How many draws the constructor makes after the star gate: three for a star (and, in the
   * system view, two more and those of its planets), four for a black hole, three for an
   * asteroid, two for an empty location.
   */
  function GateDraws(g: System, full: bool): nat
  {
    if g.starExists then 3 + (if full then 2 + PlanetsDraws(g.planets) else 0)
    else if g.blackHoleExists then 4
    else if g.asteroidExists then 3
    else 2
  }

  /** How many draws the constructor makes in all: the star gate, then the rest. */
  function DrawsUsed(g: System, full: bool): nat
  {
    1 + GateDraws(g, full)
  }

  /** The moon loop takes one draw per moon. */
  lemma {:induction false} MoonsDraws(s: Word, count: nat)
    ensures Moons(s, count).state == Iterate(s, count)
    decreases count
  {
    if count > 0 {
      var moon := RealDraw(s, 1.0, 5.0);
      MoonsDraws(moon.state, count - 1);
      IterateAdditive(s, 1, count - 1);
    }
  }

  /** A planet's attributes take eleven draws. */
  lemma AttributesDraws(s: Word)
    ensures DrawAttributes(s).state == Iterate(s, 11)
  {
    var composition := CompositionDraw(Iterate(s, 3));
    assert composition.state == Iterate(Iterate(s, 3), 4);
    IterateAdditive(s, 3, 4);
  }

  /** One planet loop pass takes eleven draws and one per moon. */
  lemma PlanetAtDraws(s: Word, distance: real)
    ensures var r := PlanetAt(s, distance);
      r.state == Iterate(s, PlanetDraws(r.planet))
  {
    var a := DrawAttributes(s);
    AttributesDraws(s);
    var count := Max(a.moonCount, 0);
    MoonsDraws(a.state, count);
    IterateAdditive(s, 11, count);
  }

  /** The planet loop takes the draws of each of its planets, in turn. */
  lemma {:induction false} PlanetsDrawCount(s: Word, distance: real, count: nat)
    ensures var r := Planets(s, distance, count);
      r.state == Iterate(s, PlanetsDraws(r.items))
    decreases count
  {
    if count > 0 {
      var step := PlanetAt(s, distance);
      var rest := Planets(step.state, step.nextDistance, count - 1);
      PlanetAtDraws(s, distance);
      PlanetsDrawCount(step.state, step.nextDistance, count - 1);
      var items := [step.planet] + rest.items;
      assert items[1..] == rest.items;
      assert PlanetsDraws(items) == PlanetDraws(step.planet) + PlanetsDraws(rest.items);
      PlanetsStep(s, distance, count);
      assert Planets(s, distance, count) == Run(items, rest.state);
      IterateChain(s, PlanetDraws(step.planet), step.state, PlanetsDraws(rest.items), rest.state, PlanetsDraws(items));
    }
  }

  /** The system view's expansion: the first distance and the planet count, then the planets. */
  lemma SystemPlanetsDraws(s: Word)
    ensures var r := SystemPlanets(s);
      r.state == Iterate(s, 2 + PlanetsDraws(r.items))
  {
    var first := RealDraw(s, 60.0, 200.0);
    var count := IntDraw(first.state, 0, 10);
    var r := SystemPlanets(s);
    assert r == Planets(count.state, first.value, count.value);
    assert count.state == Iterate(s, 2);
    PlanetsDrawCount(count.state, first.value, count.value);
    IterateChain(s, 2, count.state, PlanetsDraws(r.items), r.state, 2 + PlanetsDraws(r.items));
  }

  /** The gates after "no star" take two, three or four draws, as `GateDraws` counts them. */
  lemma WithoutStarDraws(s: Word)
    ensures var g := WithoutStar(s);
      g.procGen == Iterate(s, GateDraws(g, false))
  {
  }

  /** A star takes three draws, and in the system view those of its planets as well. */
  lemma WithStarDraws(s: Word, full: bool)
    ensures var g := WithStar(s, full);
      g.procGen == Iterate(s, GateDraws(g, full))
  {
    var g := WithStar(s, full);
    var diameter := RealDraw(s, 10.0, 40.0);
    var colour := IntDraw(diameter.state, 0, 8);
    var temperature := IntDraw(colour.state, 500, 3000);
    assert temperature.state == Iterate(s, 3);
    if full {
      var run := SystemPlanets(temperature.state);
      assert g.procGen == run.state && g.planets == run.items && g.starExists;
      SystemPlanetsDraws(temperature.state);
      IterateChain(s, 3, temperature.state, 2 + PlanetsDraws(run.items), g.procGen, GateDraws(g, full));
    } else {
      assert g.procGen == temperature.state && g.starExists;
    }
  }
}
