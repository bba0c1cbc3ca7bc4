/// What `cStarSystem`'s constructor computes, as pure functions of a coordinate and the detail
/// flag: the seed, the classification gates, the star attributes and the planet/moon expansion,
/// each drawn from the state the previous draw left behind, in the constructor's order.
module Generation {
  import opened Mixer

  datatype Option<T> = None | Some(value: T)

  /**
   * `g_starColours`: the eight packed colours a star or a planet can take. An `olc::Pixel` packs
   * red, green, blue and alpha from the lowest byte up.
   */
  const StarColours: seq<Word> := [
    0xFFFF_FFFF, 0xFFD9_FFFF, 0xFFA3_FFFF, 0xFFFF_C8C8,
    0xFFFF_CB9D, 0xFF9F_9FFF, 0xFF41_5EFF, 0xFF28_199D
  ]

  /** The table has eight entries, so every `rndInt(0, 8)` index is in range, and every colour is opaque. */
  lemma StarColoursOpaque()
    ensures |StarColours| == 8
    ensures forall c :: c in StarColours ==> c / 0x100_0000 == 0xFF
  {
  }

  /** `olc::WHITE` packed into 32 bits (all four channels 0xFF): a colour before one is drawn. */
  const White: Word := 0xFFFF_FFFF

  /**
   * `sPlanet`. `planetColour` is the packed pixel. `population` is held as an integer: the
   * loop only ever stores a clamped `int` in it, which a `double` represents exactly.
   */
  datatype Planet = Planet(
    distance: real,
    diameter: real,
    foliage: real,
    minerals: real,
    water: real,
    gases: real,
    temperature: real,
    population: int,
    ring: bool,
    planetColour: Word,
    moons: seq<real>)

  /** The public fields of a constructed `cStarSystem`. A temperature the constructor never
      assigns (it is left uninitialised) is `None`. */
  datatype System = System(
    planets: seq<Planet>,
    starExists: bool,
    starDiameter: real,
    starColour: Word,
    starTemperature: Option<int>,
    blackHoleExists: bool,
    blackHoleDiameter: real,
    blackHoleTemperature: Option<int>,
    isSuperNova: bool,
    asteroidExists: bool,
    asteroidDiameter: real,
    procGen: Word)

  /** The field initialisers, with the mixer at state `s`. */
  function Initial(s: Word): System
  {
    System([], false, 0.0, White, None, false, 0.0, None, false, false, 0.0, s)
  }

  /**
   * The initialisers describe an empty location: no body, no planets, no temperature assigned,
   * the mixer untouched, and the classification rules already met.
   */
  lemma InitialIsEmpty(s: Word)
    ensures var g := Initial(s);
      && !g.starExists && !g.blackHoleExists && !g.asteroidExists && !g.isSuperNova
      && g.planets == [] && g.starColour == White && g.procGen == s
      && g.starTemperature.None? && g.blackHoleTemperature.None?
      && Classified(g) && BodyAttributes(g) && PlanetList(g.planets)
  {
  }

  /**
   * `(x & 0xFFFF) << 16 | (y & 0xFFFF)`: masking with 0xFFFF keeps `v % 0x10000`, the shift by 16
   * multiplies by 0x10000 without overflow, and the `|` joins two disjoint bit ranges, so it adds.
   * The seed unpacks back into the low halves of both coordinates.
   */
  function Seed(x: Word, y: Word): (seed: Word)
    ensures seed / 0x1_0000 == x % 0x1_0000
    ensures seed % 0x1_0000 == y % 0x1_0000
  {
    (x % 0x1_0000) * 0x1_0000 + y % 0x1_0000
  }

  /** `std::max` on two `int`s. */
  function Max(a: int, b: int): (m: int)
    ensures m >= a && m >= b && (m == a || m == b)
  {
    if a < b then b else a
  }

  /** The conversion of a `double` to `int`: truncation toward zero. */
  function Truncate(r: real): (i: int)
    ensures 0.0 <= r ==> i as real <= r < i as real + 1.0
    ensures r < 0.0 ==> i as real - 1.0 < r <= i as real
  {
    if 0.0 <= r then r.Floor else -((-r).Floor)
  }

  /** The four composition draws of a planet. */
  datatype Composition = Composition(foliage: real, minerals: real, gases: real, water: real)

  function Total(c: Composition): real
  {
    c.foliage + c.minerals + c.gases + c.water
  }

  predicate NonNegative(c: Composition)
  {
    0.0 <= c.foliage && 0.0 <= c.minerals && 0.0 <= c.gases && 0.0 <= c.water
  }

  /** Shares of a whole: non-negative and summing to one, or all zero when nothing was drawn. */
  predicate Normalised(c: Composition)
  {
    NonNegative(c) && (Total(c) == 1.0 || c == Composition(0.0, 0.0, 0.0, 0.0))
  }

  /**
   * Scaling the four fractions by `1 / total` so that they sum to one. When the total is zero
   * the constructor divides by zero; here the fractions stay as drawn.
   */
  function Normalise(c: Composition): (r: Composition)
    ensures Total(c) != 0.0 ==> Total(r) == 1.0
    ensures NonNegative(c) ==> Normalised(r)
    ensures Total(c) == 0.0 ==> r == c
  {
    if Total(c) == 0.0 then c
    else
      var scale := 1.0 / Total(c);
      Composition(c.foliage * scale, c.minerals * scale, c.gases * scale, c.water * scale)
  }

  /** Normalising keeps the proportions: each share times the old total is the drawn fraction. */
  lemma NormaliseKeepsRatios(c: Composition)
    requires Total(c) != 0.0
    ensures Normalise(c).foliage * Total(c) == c.foliage
    ensures Normalise(c).minerals * Total(c) == c.minerals
    ensures Normalise(c).gases * Total(c) == c.gases
    ensures Normalise(c).water * Total(c) == c.water
  {
  }

  /** A `rndDouble(min, max)` result: at least `min`, at most `min + (max - min) * 0xFFFFFFFF / 0x7FFFFFFF`. */
  predicate InDrawRange(v: real, min: real, max: real)
  {
    min <= v <= min + (max - min) * 0xFFFF_FFFF as real / 0x7FFF_FFFF as real
  }

  function CompositionOf(p: Planet): Composition
  {
    Composition(p.foliage, p.minerals, p.gases, p.water)
  }

  /** Everything the planet loop promises about one planet it appends. */
  predicate WellFormedPlanet(p: Planet)
  {
    && InDrawRange(p.diameter, 4.0, 20.0)
    && InDrawRange(p.temperature, -200.0, 300.0)
    && Normalised(CompositionOf(p))
    && 0 <= p.population < 20_000_000
    && p.planetColour in StarColours
    && |p.moons| <= 4
    && forall m :: m in p.moons ==> InDrawRange(m, 1.0, 5.0)
  }

  /**
   * Planets laid out from orbital distance `from` on: each well-formed, the first at least at
   * `from` and each further one at least 20 beyond the one before.
   */
  predicate OrbitsFrom(ps: seq<Planet>, from: real)
    decreases |ps|
  {
    |ps| == 0 || (WellFormedPlanet(ps[0]) && from <= ps[0].distance && OrbitsFrom(ps[1..], ps[0].distance + 20.0))
  }

  /** A layout from `from` on has growing orbits, and every planet in it is well-formed and beyond `from`. */
  lemma {:induction false} OrbitsFromMeans(ps: seq<Planet>, from: real)
    requires OrbitsFrom(ps, from)
    ensures Orbits(ps)
    ensures forall p :: p in ps ==> WellFormedPlanet(p) && from <= p.distance
    decreases |ps|
  {
    if 0 < |ps| {
      OrbitsFromMeans(ps[1..], ps[0].distance + 20.0);
      assert forall p :: p in ps ==> p == ps[0] || p in ps[1..];
    }
  }

  /** Orbital distances grow by at least 20 from each planet to the next. */
  predicate Orbits(ps: seq<Planet>)
    decreases |ps|
  {
    |ps| <= 1 || (ps[0].distance + 20.0 <= ps[1].distance && Orbits(ps[1..]))
  }

  /** Along growing orbits, a planet `j - i` places further out is at least `20 * (j - i)` further away. */
  lemma {:induction false} OrbitsSpread(ps: seq<Planet>, i: nat, j: nat)
    requires Orbits(ps) && i <= j < |ps|
    ensures ps[i].distance + 20.0 * (j - i) as real <= ps[j].distance
    decreases j - i
  {
    if i < j {
      OrbitsSpread(ps, i + 1, j);
      OrbitsNext(ps, i);
    }
  }

  /** Growing orbits hold between each planet and the next, wherever it stands. */
  lemma {:induction false} OrbitsNext(ps: seq<Planet>, i: nat)
    requires Orbits(ps) && i + 1 < |ps|
    ensures ps[i].distance + 20.0 <= ps[i + 1].distance
    decreases i
  {
    if 0 < i {
      OrbitsNext(ps[1..], i - 1);
    }
  }

  /** A sequence drawn item by item and the state the last draw left behind. */
  datatype Run<T> = Run(items: seq<T>, state: Word)

  /** One planet, the running orbital distance for the next one, and the state after its draws. */
  datatype PlanetStep = PlanetStep(planet: Planet, nextDistance: real, state: Word)

  /** The inner loop: `count` moon diameters, each `rndDouble(1.0, 5.0)`, in draw order. */
  function Moons(s: Word, count: nat): (r: Run<real>)
    ensures |r.items| == count
    ensures forall m :: m in r.items ==> InDrawRange(m, 1.0, 5.0)
    decreases count
  {
    if count == 0 then Run([], s)
    else
      var moon := RealDraw(s, 1.0, 5.0);
      var rest := Moons(moon.state, count - 1);
      Run([moon.value] + rest.items, rest.state)
  }

  /** The four composition draws, each `rndDouble(0.0, 1.0)`: foliage, minerals, gases, water. */
  function CompositionDraw(s: Word): (d: Drawn<Composition>)
    ensures NonNegative(d.value)
  {
    var foliage := RealDraw(s, 0.0, 1.0);
    var minerals := RealDraw(foliage.state, 0.0, 1.0);
    var gases := RealDraw(minerals.state, 0.0, 1.0);
    var water := RealDraw(gases.state, 0.0, 1.0);
    Drawn(Composition(foliage.value, minerals.value, gases.value, water.value), water.state)
  }

  /** The planet the loop body assembles from its draws, well-formed when every draw is in range. */
  function AssemblePlanet(
    distance: real, diameter: real, temperature: real, c: Composition,
    colour: Word, population: int, ring: bool, moons: seq<real>): (p: Planet)
    requires InDrawRange(diameter, 4.0, 20.0) && InDrawRange(temperature, -200.0, 300.0)
    requires Normalised(c) && colour in StarColours && 0 <= population < 20_000_000
    requires |moons| <= 4 && forall m :: m in moons ==> InDrawRange(m, 1.0, 5.0)
    ensures WellFormedPlanet(p) && p.distance == distance && CompositionOf(p) == c && p.moons == moons
  {
    Planet(distance, diameter, c.foliage, c.minerals, c.water, c.gases, temperature,
           population, ring, colour, moons)
  }

  /**
   * The eleven draws of one planet loop pass before its moons, in order: the distance step,
   * the diameter, the temperature, the four composition fractions, the colour index, the
   * population, the ring and the moon count.
   */
  datatype Attributes = Attributes(
    step: real, diameter: real, temperature: real, composition: Composition,
    colour: int, population: int, ring: int, moonCount: int, state: Word)

  function DrawAttributes(s: Word): (a: Attributes)
    ensures InDrawRange(a.step, 20.0, 200.0)
    ensures InDrawRange(a.diameter, 4.0, 20.0) && InDrawRange(a.temperature, -200.0, 300.0)
    ensures NonNegative(a.composition) && 0 <= a.colour < 8
    ensures -5_000_000 <= a.population < 20_000_000 && 0 <= a.ring < 10 && -5 <= a.moonCount < 5
  {
    var step := RealDraw(s, 20.0, 200.0);
    var diameter := RealDraw(step.state, 4.0, 20.0);
    var temperature := RealDraw(diameter.state, -200.0, 300.0);
    var drawn := CompositionDraw(temperature.state);
    var colour := IntDraw(drawn.state, 0, 8);
    var population := IntDraw(colour.state, -5_000_000, 20_000_000);
    var ring := IntDraw(population.state, 0, 10);
    var moonCount := IntDraw(ring.state, -5, 5);
    Attributes(step.value, diameter.value, temperature.value, drawn.value,
               colour.value, population.value, ring.value, moonCount.value, moonCount.state)
  }

  /**
   * One iteration of the planet loop, placed at orbital distance `distance`: its attribute
   * draws, the composition normalised, the population clamped at zero, a ring on a draw of 1
   * out of 10, then `max(moonCount, 0)` moons.
   */
  function PlanetAt(s: Word, distance: real): (r: PlanetStep)
    ensures WellFormedPlanet(r.planet)
    ensures r.planet.distance == distance
    ensures InDrawRange(r.nextDistance - distance, 20.0, 200.0)
  {
    var a := DrawAttributes(s);
    var moons := Moons(a.state, Max(a.moonCount, 0));
    var planet := AssemblePlanet(
      distance, a.diameter, a.temperature, Normalise(a.composition),
      StarColours[a.colour], Max(a.population, 0), a.ring == 1, moons.items);
    PlanetStep(planet, distance + a.step, moons.state)
  }

  /** The planet loop: `count` planets, the first at orbital distance `distance`. */
  function Planets(s: Word, distance: real, count: nat): (r: Run<Planet>)
    ensures |r.items| == count
    decreases count
  {
    if count == 0 then Run([], s)
    else
      var step := PlanetAt(s, distance);
      var rest := Planets(step.state, step.nextDistance, count - 1);
      Run([step.planet] + rest.items, rest.state)
  }

  /**
   * The planet loop lays its planets out from `distance` on: each well-formed, the first at
   * `distance` itself and each further one at least 20 beyond the one before.
   */
  lemma {:induction false} PlanetsLayout(s: Word, distance: real, count: nat)
    ensures var ps := Planets(s, distance, count).items;
      OrbitsFrom(ps, distance) && (0 < count ==> ps[0].distance == distance)
    decreases count
  {
    if 0 < count {
      var step := PlanetAt(s, distance);
      var rest := Planets(step.state, step.nextDistance, count - 1).items;
      PlanetsLayout(step.state, step.nextDistance, count - 1);
      OrbitsFromCloser(rest, step.nextDistance, step.planet.distance + 20.0);
      var ps := [step.planet] + rest;
      assert ps[0] == step.planet && ps[1..] == rest;
    }
  }

  /** A layout from `from` on is also one from any nearer distance. */
  lemma OrbitsFromCloser(ps: seq<Planet>, from: real, nearer: real)
    requires OrbitsFrom(ps, from) && nearer <= from
    ensures OrbitsFrom(ps, nearer)
  {
  }

  /** One pass of the planet loop followed by the remaining passes. */
  lemma PlanetsStep(s: Word, distance: real, count: nat)
    requires 0 < count
    ensures var step := PlanetAt(s, distance);
      var later := Planets(step.state, step.nextDistance, count - 1);
      Planets(s, distance, count) == Run([step.planet] + later.items, later.state)
  {
  }

  /** The largest star or black-hole temperature: 2999 times the largest diameter draw, truncated. */
  const HottestBody: int := 209_930

  /** `rndInt(500, 3000) * diameter` truncated, for a diameter drawn by `rndDouble(10.0, 40.0)`. */
  lemma TemperatureBounds(t: int, d: real)
    requires 500 <= t < 3000 && InDrawRange(d, 10.0, 40.0)
    ensures 5000 <= Truncate(t as real * d) <= HottestBody
  {
    var tr := t as real;
    MulLe(500.0, tr, 10.0);
    MulLe(10.0, d, tr);
    assert 5000.0 <= tr * d;
    MulLe(d, 70.00000002, tr);
    MulLe(tr, 2999.0, 70.00000002);
    assert tr * d <= 209_930.00005998;
  }

  /** A body temperature as the constructor computes it: `rndInt(500, 3000) * diameter`, truncated. */
  function Temperature(t: int, d: real): (k: int)
    requires 500 <= t < 3000 && InDrawRange(d, 10.0, 40.0)
    ensures 5000 <= k <= HottestBody
  {
    TemperatureBounds(t, d);
    Truncate(t as real * d)
  }

  /**
   * The gates after "no star": a black hole (1 in 1000), else an asteroid (1 in 300), else
   * nothing. The black-hole branch returns before the asteroid draw. Draws: four for a black
   * hole, three for an asteroid, two for an empty location.
   */
  function WithoutStar(s: Word): (g: System)
    ensures !g.starExists && g.planets == [] && g.starTemperature.None?
    ensures !(g.blackHoleExists && g.asteroidExists) && (g.isSuperNova ==> g.blackHoleExists)
    ensures g.blackHoleTemperature.Some? <==> g.blackHoleExists
    ensures g.blackHoleExists ==>
      && InDrawRange(g.blackHoleDiameter, 10.0, 40.0)
      && 5000 <= g.blackHoleTemperature.value <= HottestBody
    ensures g.asteroidExists ==> InDrawRange(g.asteroidDiameter, 5.0, 25.0)
  {
    var blackHole := IntDraw(s, 0, 1000);
    if blackHole.value == 1 then BlackHole(blackHole.state)
    else
      var asteroid := IntDraw(blackHole.state, 0, 300);
      if asteroid.value == 1 then
        var diameter := RealDraw(asteroid.state, 5.0, 25.0);
        Initial(diameter.state).(asteroidExists := true, asteroidDiameter := diameter.value)
      else
        Initial(asteroid.state)
  }

  /**
   * A black hole, once its gate has passed: the supernova flag (1 in 4), the diameter and the
   * temperature. Three draws.
   */
  function BlackHole(s: Word): (g: System)
    ensures g.blackHoleExists && !g.starExists && !g.asteroidExists && g.planets == []
    ensures InDrawRange(g.blackHoleDiameter, 10.0, 40.0)
    ensures g.blackHoleTemperature.Some? && 5000 <= g.blackHoleTemperature.value <= HottestBody
    ensures g.starTemperature.None?
  {
    var nova := IntDraw(s, 0, 4);
    var diameter := RealDraw(nova.state, 10.0, 40.0);
    var temperature := IntDraw(diameter.state, 500, 3000);
    Initial(temperature.state).(
      blackHoleExists := true,
      isSuperNova := nova.value == 1,
      blackHoleDiameter := diameter.value,
      blackHoleTemperature := Some(Temperature(temperature.value, diameter.value)))
  }

  /**
   * The system view's expansion: the first orbital distance, the planet count, then the planet
   * loop. At most nine planets, the first at least 60 from the star.
   */
  function SystemPlanets(s: Word): (r: Run<Planet>)
    ensures |r.items| <= 9 && OrbitsFrom(r.items, 60.0)
  {
    var first := RealDraw(s, 60.0, 200.0);
    var count := IntDraw(first.state, 0, 10);
    PlanetsLayout(count.state, first.value, count.value);
    Planets(count.state, first.value, count.value)
  }

  /**
   * A star: its diameter, its colour from the table and its temperature, then, for the system
   * view, the planets. Draws: three for the star, then those of the planets.
   */
  function WithStar(s: Word, full: bool): (g: System)
    ensures g.starExists && !g.blackHoleExists && !g.asteroidExists && !g.isSuperNova
    ensures g.blackHoleTemperature.None?
    ensures InDrawRange(g.starDiameter, 10.0, 40.0) && g.starColour in StarColours
    ensures g.starTemperature.Some? && 5000 <= g.starTemperature.value <= HottestBody
    ensures !full ==> g.planets == []
    ensures |g.planets| <= 9 && OrbitsFrom(g.planets, 60.0)
  {
    var diameter := RealDraw(s, 10.0, 40.0);
    var colour := IntDraw(diameter.state, 0, 8);
    var temperature := IntDraw(colour.state, 500, 3000);
    var coarse := Initial(temperature.state).(
      starExists := true,
      starDiameter := diameter.value,
      starColour := StarColours[colour.value],
      starTemperature := Some(Temperature(temperature.value, diameter.value)));
    if !full then coarse
    else
      var run := SystemPlanets(temperature.state);
      coarse.(planets := run.items, procGen := run.state)
  }

  /**
   * The classification outcomes: at most one of star, black hole and asteroid; only a black hole
   * can be a supernova; a temperature is assigned exactly when its body exists; only a star has
   * planets.
   */
  predicate Classified(g: System)
  {
    && (g.starExists ==> !g.blackHoleExists && !g.asteroidExists)
    && !(g.blackHoleExists && g.asteroidExists)
    && (g.isSuperNova ==> g.blackHoleExists)
    && (g.starTemperature.Some? <==> g.starExists)
    && (g.blackHoleTemperature.Some? <==> g.blackHoleExists)
    && (!g.starExists ==> g.planets == [])
  }

  /**
   * What the gates draw for the body that exists: its diameter in its `rndDouble` range, a star
   * colour from the table, and a temperature between 5000 and `HottestBody`.
   */
  predicate BodyAttributes(g: System)
  {
    && (g.starExists ==>
          && InDrawRange(g.starDiameter, 10.0, 40.0)
          && g.starColour in StarColours
          && g.starTemperature.Some? && 5000 <= g.starTemperature.value <= HottestBody)
    && (g.blackHoleExists ==>
          && InDrawRange(g.blackHoleDiameter, 10.0, 40.0)
          && g.blackHoleTemperature.Some? && 5000 <= g.blackHoleTemperature.value <= HottestBody)
    && (g.asteroidExists ==> InDrawRange(g.asteroidDiameter, 5.0, 25.0))
  }

  /**
   * The planet list: at most nine planets, each well-formed, the first at least 60 from the star
   * and each further one at least 20 beyond the one before.
   */
  predicate PlanetList(ps: seq<Planet>)
  {
    |ps| <= 9 && OrbitsFrom(ps, 60.0)
  }

  /**
   * `cStarSystem(x, y, full)`: every public field, and the mixer state it leaves behind. The
   * galaxy view (`full == false`) never has planets.
   */
  function Generate(x: Word, y: Word, full: bool): (g: System)
    ensures Classified(g) && BodyAttributes(g) && PlanetList(g.planets)
    ensures !full ==> g.planets == []
  {
    var star := IntDraw(Seed(x, y), 0, 20);
    if star.value != 1 then WithoutStar(star.state) else WithStar(star.state, full)
  }
}
