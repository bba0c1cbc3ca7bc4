/// `cStarSystem` itself: an object whose public fields the constructor fills in, drawing every
/// value from the mixer state `procGen`, which each draw updates in place.
module StarSystems {
  import opened Mixer
  import opened Generation

  class StarSystem {
    var planets: seq<Planet>
    var starExists: bool
    var starDiameter: real
    var starColour: Word
    /** Left unassigned by the constructor unless a star exists. */
    var starTemperature: int
    var blackHoleExists: bool
    var blackHoleDiameter: real
    /** Left unassigned by the constructor unless a black hole exists. */
    var blackHoleTemperature: int
    var isSuperNova: bool
    var asteroidExists: bool
    var asteroidDiameter: real
    var procGen: Word

    /**
     * The fields read as a system; a temperature `g` leaves unassigned (`None`) is read as
     * unassigned too, whatever the field holds.
     */
    ghost function Observed(g: System): System
      reads this
    {
      System(planets, starExists, starDiameter, starColour,
             if g.starTemperature.Some? then Some(starTemperature) else None,
             blackHoleExists, blackHoleDiameter,
             if g.blackHoleTemperature.Some? then Some(blackHoleTemperature) else None,
             isSuperNova, asteroidExists, asteroidDiameter, procGen)
    }

    /** The fields hold the system `g`. */
    ghost predicate Matches(g: System)
      reads this
    {
      Observed(g) == g
    }

    /**
     * `rnd()`: the state moves on by `0xe120fc15` (wrapping at 2^32), and the result is the
     * state put through two 64-bit multiply-and-fold rounds.
     */
    method Rnd() returns (r: Word)
      modifies this`procGen
      ensures Drawn(r, procGen) == RawDraw(old(procGen))
    {
      procGen := Advance(procGen);
      var tmp: int := procGen * 0x4a39_b70d;
      var m1 := Fold(tmp);
      tmp := (m1 as int) * 0x12fa_d5c9;
      var m2 := Fold(tmp);
      r := m2;
    }

    /** `rndInt(min, max)`: one draw, reduced to `[min, max)` in 32-bit unsigned arithmetic. */
    method RndInt(min: int, max: int) returns (v: int)
      requires ValidIntRange(min, max)
      modifies this`procGen
      ensures Drawn(v, procGen) == IntDraw(old(procGen), min, max)
      ensures min <= v < max
    {
      var raw := Rnd();
      var sum := (raw % ToUnsigned(max - min) + ToUnsigned(min)) % 0x1_0000_0000;
      v := ToSigned(sum);
      UnsignedRangeExact(raw, min, max);
    }

    /** `rndDouble(min, max)`: one draw over 0x7FFFFFFF, scaled to the span and shifted by `min`. */
    method RndDouble(min: real, max: real) returns (v: real)
      modifies this`procGen
      ensures Drawn(v, procGen) == RealDraw(old(procGen), min, max)
      ensures min <= max ==> InDrawRange(v, min, max)
    {
      var raw := Rnd();
      v := RealFromRaw(raw, min, max);
    }

    /**
     * The moon loop: `count` diameters, each `rndDouble(1.0, 5.0)`, appended one at a time.
     */
    method DrawMoons(count: int) returns (moons: seq<real>)
      requires 0 <= count
      modifies this`procGen
      ensures Run(moons, procGen) == Moons(old(procGen), count)
    {
      moons := [];
      var n := 0;
      while n < count
        invariant 0 <= n <= count
        invariant moons + Moons(procGen, count - n).items == Moons(old(procGen), count).items
        invariant Moons(procGen, count - n).state == Moons(old(procGen), count).state
      {
        ghost var before := procGen;
        var moon := RndDouble(1.0, 5.0);
        assert Moons(before, count - n).items == [moon] + Moons(procGen, count - n - 1).items;
        moons := moons + [moon];
        n := n + 1;
      }
    }

    /**
     * One pass of the planet loop at orbital distance `distance`: the distance step, diameter,
     * temperature, the four composition fractions normalised to sum to one, the colour,
     * the clamped population, the ring and the moons. `next` is the distance for the next planet.
     */
    method DrawPlanet(distance: real) returns (p: Planet, next: real)
      modifies this`procGen
      ensures PlanetStep(p, next, procGen) == PlanetAt(old(procGen), distance)
    {
      var step := RndDouble(20.0, 200.0);
      next := distance + step;
      var diameter := RndDouble(4.0, 20.0);
      var temperature := RndDouble(-200.0, 300.0);
      ghost var beforeComposition := procGen;
      var foliage := RndDouble(0.0, 1.0);
      var minerals := RndDouble(0.0, 1.0);
      var gases := RndDouble(0.0, 1.0);
      var water := RndDouble(0.0, 1.0);
      var drawn := Composition(foliage, minerals, gases, water);
      assert Drawn(drawn, procGen) == CompositionDraw(beforeComposition);
      var colour := RndInt(0, 8);
      var shares := ScaleShares(drawn);
      var population := RndInt(-5_000_000, 20_000_000);
      ghost var drawnPopulation := population;
      population := Max(population, 0);
      var ring := RndInt(0, 10);
      var moonCount := RndInt(-5, 5);
      ghost var attributes := Attributes(
        step, diameter, temperature, drawn, colour, drawnPopulation, ring, moonCount, procGen);
      assert attributes == DrawAttributes(old(procGen));
      moonCount := Max(moonCount, 0);
      var moons := DrawMoons(moonCount);
      p := Planet(distance, diameter, shares.foliage, shares.minerals, shares.water, shares.gases, temperature,
                  population, ring == 1, StarColours[colour], moons);
    }

    /**
     * Normalising a planet's composition: the four fractions times `1 / sum`, so that they sum
     * to one. A zero sum leaves them as drawn.
     */
    static method ScaleShares(c: Composition) returns (r: Composition)
      ensures r == Normalise(c)
    {
      var foliage, minerals, gases, water := c.foliage, c.minerals, c.gases, c.water;
      var sum := foliage + minerals + gases + water;
      if sum != 0.0 {
        var scale := 1.0 / sum;
        foliage := foliage * scale;
        minerals := minerals * scale;
        gases := gases * scale;
        water := water * scale;
      }
      r := Composition(foliage, minerals, gases, water);
    }

    /**
     * One pass of the planet loop body: the planet at orbital distance `distance`, pushed onto
     * the planet list. Of `left` passes still to run, `left - 1` remain after it.
     */
    method AppendPlanet(distance: real, ghost left: nat) returns (next: real)
      requires 0 < left
      modifies this`planets, this`procGen
      ensures var later := Planets(procGen, next, left - 1);
        && planets + later.items == old(planets) + Planets(old(procGen), distance, left).items
        && later.state == Planets(old(procGen), distance, left).state
    {
      PlanetsStep(procGen, distance, left);
      var p;
      p, next := DrawPlanet(distance);
      assert planets + ([p] + Planets(procGen, next, left - 1).items)
          == (planets + [p]) + Planets(procGen, next, left - 1).items;
      planets := planets + [p];
    }

    /**
     * The planet loop: `count` planets from orbital distance `distance` on, appended in order
     * to the (still empty) planet list.
     */
    method DrawPlanets(distance: real, count: nat)
      requires planets == []
      modifies this`planets, this`procGen
      ensures planets == Planets(old(procGen), distance, count).items
      ensures procGen == Planets(old(procGen), distance, count).state
    {
      var i, d := 0, distance;
      ghost var goal := Planets(procGen, d, count);
      ghost var left := count;
      while i < count
        invariant i <= count && left == count - i
        invariant planets + Planets(procGen, d, left).items == goal.items
        invariant Planets(procGen, d, left).state == goal.state
      {
        d := AppendPlanet(d, left);
        left := left - 1;
        i := i + 1;
      }
    }

    /**
     * `cStarSystem(x, y, full)`: the seed from the low 16 bits of each coordinate, then the
     * star gate (1 in 20) and the gates and draws that follow it, in the draw order of
     * `Generate`.
     */
    constructor (x: Word, y: Word, full: bool := false)
      ensures Matches(Generate(x, y, full))
    {
      planets := [];
      starExists := false;
      starDiameter := 0.0;
      starColour := White;
      blackHoleExists := false;
      blackHoleDiameter := 0.0;
      isSuperNova := false;
      asteroidExists := false;
      asteroidDiameter := 0.0;
      procGen := 0;
      new;
      procGen := Seed(x, y);
      var star := RndInt(0, 20);
      starExists := star == 1;
      if !starExists {
        NoStar();
        return;
      }
      GenerateStar(full);
    }

    /**
     * The gates after "no star": a black hole (1 in 1000) with its supernova flag, diameter and
     * temperature, returning at once; otherwise an asteroid (1 in 300) with its diameter.
     */
    method NoStar()
      requires Matches(Initial(procGen))
      modifies this
      ensures Matches(WithoutStar(old(procGen)))
    {
      var blackHole := RndInt(0, 1000);
      blackHoleExists := blackHole == 1;
      if blackHoleExists {
        DrawBlackHole();
        return;
      }
      var asteroid := RndInt(0, 300);
      asteroidExists := asteroid == 1;
      if asteroidExists && !blackHoleExists {
        asteroidDiameter := RndDouble(5.0, 25.0);
      }
    }

    /** A black hole's own draws: its supernova flag, its diameter and its temperature. */
    method DrawBlackHole()
      requires Matches(Initial(procGen).(blackHoleExists := true))
      modifies this`isSuperNova, this`blackHoleDiameter, this`blackHoleTemperature, this`procGen
      ensures Matches(BlackHole(old(procGen)))
    {
      var nova := RndInt(0, 4);
      isSuperNova := nova == 1;
      blackHoleDiameter := RndDouble(10.0, 40.0);
      var t := RndInt(500, 3000);
      blackHoleTemperature := Temperature(t, blackHoleDiameter);
    }

    /**
     * A star: its diameter, its colour from the table and its temperature; the galaxy view stops
     * there, the system view goes on to the first orbital distance, the planet count and the
     * planet loop.
     */
    method GenerateStar(full: bool)
      requires Matches(Initial(procGen).(starExists := true))
      modifies this
      ensures Matches(WithStar(old(procGen), full))
    {
      DrawStar();
      if !full {
        return;
      }
      DrawSystem();
    }

    /** The star's own draws: its diameter, its colour from the table and its temperature. */
    method DrawStar()
      requires Matches(Initial(procGen).(starExists := true))
      modifies this`starDiameter, this`starColour, this`starTemperature, this`procGen
      ensures Matches(WithStar(old(procGen), false))
    {
      starDiameter := RndDouble(10.0, 40.0);
      var colour := RndInt(0, 8);
      starColour := StarColours[colour];
      var t := RndInt(500, 3000);
      starTemperature := Temperature(t, starDiameter);
    }

    /** The system view's expansion: the first orbital distance, the planet count, the planet loop. */
    method DrawSystem()
      requires planets == []
      modifies this`planets, this`procGen
      ensures planets == SystemPlanets(old(procGen)).items
      ensures procGen == SystemPlanets(old(procGen)).state
    {
      var distance := RndDouble(60.0, 200.0);
      var count := RndInt(0, 10);
      DrawPlanets(distance, count);
    }

    /**
     * The renderer's ring draws for a ringed planet, made on the same object after construction:
     * a ring colour index `rndInt(0, 2)` (so only the first two of its three ring colours), then
     * a ring shape out of three. They are the next two values of the object's own stream.
     */
    method RingStyle() returns (colour: int, shape: int)
      modifies this`procGen
      ensures var c := IntDraw(old(procGen), 0, 2);
        colour == c.value && Drawn(shape, procGen) == IntDraw(c.state, 0, 3)
      ensures 0 <= colour < 2 && 0 <= shape < 3
      ensures procGen == Iterate(old(procGen), 2)
    {
      colour := RndInt(0, 2);
      ghost var mid := procGen;
      shape := RndInt(0, 3);
      IterateChain(old(procGen), 1, mid, 1, procGen, 2);
    }

    /** The renderer's shade draw for one moon: the next value of the object's own stream. */
    method MoonShade() returns (shade: int)
      modifies this`procGen
      ensures Drawn(shade, procGen) == IntDraw(old(procGen), 0, 3)
      ensures 0 <= shade < 3
      ensures procGen == Iterate(old(procGen), 1)
    {
      shade := RndInt(0, 3);
    }
  }
}
