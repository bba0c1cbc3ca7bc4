# Procedural star systems, modelled in Dafny

This project models `cStarSystem` from ProcGenUniverse, a procedurally generated galaxy. Each
grid coordinate `(x, y)` maps to a star system that is fully determined by the coordinate. Only
the low 16 bits of each coordinate are packed into a 32-bit seed `nProcGen`. Every random value
then comes from a counter-based mixer (`rnd`): each call adds `0xe120fc15` to the state and
returns the state put through two 64-bit multiply-and-fold rounds. On top of it:

- `rndInt(min, max)` reduces a draw to `[min, max)`;
- `rndDouble(min, max)` scales a draw by `1 / 0x7FFFFFFF`.

The constructor classifies the location through a chain of gates:

- a star with probability 1 in 20;
- otherwise a black hole (1 in 1000), which is a supernova 1 in 4 times;
- otherwise an asteroid (1 in 300).

A star draws a diameter, a colour from the eight-entry table `g_starColours` and a temperature.
When the full system is asked for, it goes on to draw up to nine planets. Each planet has:

- an orbital distance, at least 20 beyond the previous one;
- a diameter and a temperature;
- a composition normalised to sum to one;
- a colour, a non-negative population and a ring flag;
- up to four moons.

The project is made of five modules:

- `Mixer` (mixer.dfy): the 32-bit state and its advance. It also holds the mixer, computed on
  exact integers, the `rndInt` and `rndDouble` arithmetic, and the closed form of the state
  after `k` draws.
- `Generation` (generation.dfy): the entities (`Planet`, `System`) and the constructor as pure
  functions of the coordinate, each draw threading the state on. This is the specification the
  imperative model is proved against.
- `DrawCounts` (draw_counts.dfy): how many draws each part takes, and the proof that the state
  left behind is the seed moved on by exactly that many increments.
- `Properties` (properties.dfy): the whole-system properties.
- `StarSystems` (star_system.dfy): the class `StarSystem`, with the source's fields and its
  mutable `procGen`. Its methods are proved against the functions above, applied to the old
  state:
  - `Rnd`, `RndInt` and `RndDouble` return the values of `RawDraw`, `IntDraw` and `RealDraw`;
  - the renderer's `RingStyle` and `MoonShade` return the next `IntDraw` values of the same
    stream;
  - the constructor and its parts keep the source's planet and moon loops, and leave the fields
    equal to the corresponding `Generation` function.

The mixer works on exact integers. `>>` is division by 2^32, and a cast to `uint32_t` is
reduction modulo 2^32. `^` is `Xor`, a recursion over the bits, which is proved to be bitwise:
bit `i` of `Xor(a, b)` is bit `i` of `a` plus bit `i` of `b`, modulo 2.

## Model

| member | source | states |
|---|---|---|
| Mixer.AdvanceWraps | ProcGenUni/ProcGenUni.cpp:177 | `Advance` is one step of the closed form; the new state is below the old one exactly when `nProcGen + 0xe120fc15` overflows 32 bits; distinct states advance to distinct states |
| Mixer.XorStep | ProcGenUni/ProcGenUni.cpp:180-182 | for all operands, zero included, `Xor` is the lowest bits' sum modulo 2 plus twice the `Xor` of the halves |
| Mixer.XorIsBitwise | ProcGenUni/ProcGenUni.cpp:180-182 | bit `i` of `Xor(a, b)` is bit `i` of `a` plus bit `i` of `b`, modulo 2, at every position: `Xor` is C++'s `^` |
| Mixer.XorCommutes | ProcGenUni/ProcGenUni.cpp:180-182 | `Xor(a, b) == Xor(b, a)` |
| Mixer.XorSelfInverse | ProcGenUni/ProcGenUni.cpp:180-182 | `Xor(Xor(a, b), b) == a` |
| Mixer.XorLowBits | ProcGenUni/ProcGenUni.cpp:180-182 | the low `k` bits of `Xor(a, b)` depend only on the low `k` bits of `a` and `b` |
| Mixer.FoldHalves | ProcGenUni/ProcGenUni.cpp:180-182 | `(uint32_t)((tmp >> 32) ^ tmp)`, which is `Fold`, is the high half of `tmp` xor-ed onto its low half |
| Mixer.MixRounds | ProcGenUni/ProcGenUni.cpp:178-183 | `Mix` is two rounds, each multiplying by its constant (0x4a39b70d, then 0x12fad5c9) and xoring the product's high half onto its low half |
| Mixer.RawDrawOfNewState | ProcGenUni/ProcGenUni.cpp:175-184 | `rnd()` leaves the state moved on by one increment and returns `Mix` of the new state, so the value depends on the new state alone; two draws agree exactly when their starting states do |
| Mixer.ToUnsigned | ProcGenUni/ProcGenUni.cpp:172 | converting an `int` to `uint32_t` keeps a non-negative value and adds 2^32 to a negative one |
| Mixer.ToSigned | ProcGenUni/ProcGenUni.cpp:172 | converting a `uint32_t` back to `int` gives a 32-bit `int` that converts to the same word |
| Mixer.IterateClosedForm | ProcGenUni/ProcGenUni.cpp:175-184 | after `k` draws the state is `seed + k * 0xe120fc15 (mod 2^32)`, whatever the values drawn |
| Mixer.IterateAdditive | ProcGenUni/ProcGenUni.cpp:175-184 | `a` draws followed by `b` draws are `a + b` draws |
| Mixer.IterateChain | ProcGenUni/ProcGenUni.cpp:175-184 | two consecutive runs of draws compose into one run of the summed length |
| Mixer.IntFromRaw | ProcGenUni/ProcGenUni.cpp:170-173 | `rndInt` lies in `[min, max)`, including for a negative `min` |
| Mixer.UnsignedRangeExact | ProcGenUni/ProcGenUni.cpp:170-173 | `rndInt`'s unsigned wrap-around arithmetic, converted back to `int`, equals `min + raw % (max - min)` exactly |
| Mixer.SignedOfUnsigned | ProcGenUni/ProcGenUni.cpp:172 | an `int` converted to `uint32_t` and back is unchanged |
| Mixer.Unit | ProcGenUni/ProcGenUni.cpp:167 | `rnd() / 0x7FFFFFFF` lies in `[0, 0xFFFFFFFF / 0x7FFFFFFF]` and exceeds 1 exactly when the raw draw exceeds `0x7FFFFFFF` |
| Mixer.Stretch | ProcGenUni/ProcGenUni.cpp:167 | the unit times the span is non-negative, bounded by the span times `0xFFFFFFFF / 0x7FFFFFFF`, and within the span exactly when the unit is at most 1 |
| Mixer.RealFromRaw | ProcGenUni/ProcGenUni.cpp:165-168 | `rndDouble` is at least `min` and at most `min + (max - min) * 0xFFFFFFFF / 0x7FFFFFFF`; it exceeds `max` exactly when the raw draw exceeds `0x7FFFFFFF` |
| Mixer.IntDraw | ProcGenUni/ProcGenUni.cpp:170-173 | one draw from a state gives a value in `[min, max)` |
| Mixer.RealDraw | ProcGenUni/ProcGenUni.cpp:165-168 | one draw from a state gives a value in `rndDouble`'s range |
| Generation.StarColoursOpaque | ProcGenUni/ProcGenUni.cpp:7-11 | `g_starColours` has eight entries, so every `rndInt(0, 8)` index is in range, and every entry has alpha 0xFF |
| Generation.InitialIsEmpty | ProcGenUni/ProcGenUni.cpp:144-163 | the field initialisers describe an empty location: no body, no planets, no temperature, white star colour, the mixer untouched, and the classification rules already met |
| Generation.Seed | ProcGenUni/ProcGenUni.cpp:55 | the seed's high half is the low 16 bits of `x` and its low half the low 16 bits of `y` |
| Generation.Max | ProcGenUni/ProcGenUni.cpp:120 | `std::max` is at least both arguments and equal to one of them |
| Generation.Truncate | ProcGenUni/ProcGenUni.cpp:82 | the conversion of a `double` to `int` truncates toward zero |
| Generation.Normalise | ProcGenUni/ProcGenUni.cpp:112-116 | a non-zero total gives fractions summing to one; non-negative draws give non-negative shares; a zero total leaves them as drawn |
| Generation.NormaliseKeepsRatios | ProcGenUni/ProcGenUni.cpp:112-116 | each share times the drawn total is the drawn fraction |
| Generation.Moons | ProcGenUni/ProcGenUni.cpp:126-132 | the moon loop yields `count` diameters, each in `rndDouble(1.0, 5.0)`'s range |
| Generation.CompositionDraw | ProcGenUni/ProcGenUni.cpp:105-108 | the four composition draws are non-negative |
| Generation.AssemblePlanet | ProcGenUni/ProcGenUni.cpp:96-135 | a planet built from in-range draws is well-formed and keeps its distance, composition and moons |
| Generation.DrawAttributes | ProcGenUni/ProcGenUni.cpp:98-126 | the eleven attribute draws of a planet each lie in their `rndInt`/`rndDouble` range |
| Generation.PlanetAt | ProcGenUni/ProcGenUni.cpp:96-135 | one loop pass appends a well-formed planet at the current distance and moves the distance on by a `rndDouble(20.0, 200.0)` step |
| Generation.Planets | ProcGenUni/ProcGenUni.cpp:94-136 | the planet loop appends exactly `count` planets |
| Generation.PlanetsLayout | ProcGenUni/ProcGenUni.cpp:94-136 | the first planet lies at the starting distance, every planet is well-formed, and each is at least 20 beyond the one before |
| Generation.OrbitsFromMeans | ProcGenUni/ProcGenUni.cpp:97-98 | such a layout has growing orbits and every planet is well-formed and beyond the start |
| Generation.OrbitsSpread | ProcGenUni/ProcGenUni.cpp:97-98 | along growing orbits, planet `j` lies at least `20 * (j - i)` beyond planet `i` |
| Generation.OrbitsNext | ProcGenUni/ProcGenUni.cpp:97-98 | growing orbits hold between any planet and the next |
| Generation.TemperatureBounds | ProcGenUni/ProcGenUni.cpp:66-67 | `rndInt(500, 3000)` times a `rndDouble(10.0, 40.0)` diameter, truncated, lies in `[5000, 209930]` |
| Generation.Temperature | ProcGenUni/ProcGenUni.cpp:82 | a star or black-hole temperature lies in `[5000, 209930]` |
| Generation.WithoutStar | ProcGenUni/ProcGenUni.cpp:59-77 | without a star: never both a black hole and an asteroid; a supernova only with a black hole; a black-hole temperature exactly when there is one; diameters in range; no planets |
| Generation.BlackHole | ProcGenUni/ProcGenUni.cpp:63-69 | a black hole has a diameter in `rndDouble(10.0, 40.0)`'s range, a temperature in `[5000, 209930]`, no star, asteroid or planets |
| Generation.SystemPlanets | ProcGenUni/ProcGenUni.cpp:92-136 | at most nine planets, the first at least 60 from the star, each at least 20 beyond the one before |
| Generation.WithStar | ProcGenUni/ProcGenUni.cpp:80-136 | a star has a diameter in range, a colour from the eight-entry table, a temperature in `[5000, 209930]` and no black hole or asteroid; the galaxy view stops with no planets |
| Generation.Generate | ProcGenUni/ProcGenUni.cpp:52-137 | the classifications exclude each other, a supernova implies a black hole, temperatures exist exactly for existing bodies, the bodies' attributes are in range, and the planet list is bounded and ordered (empty unless the full system is asked for) |
| DrawCounts.MoonsDraws | ProcGenUni/ProcGenUni.cpp:126-132 | the moon loop takes one draw per moon |
| DrawCounts.AttributesDraws | ProcGenUni/ProcGenUni.cpp:98-126 | a planet's attributes take eleven draws |
| DrawCounts.PlanetAtDraws | ProcGenUni/ProcGenUni.cpp:96-135 | one planet takes eleven draws plus one per moon |
| DrawCounts.PlanetsDrawCount | ProcGenUni/ProcGenUni.cpp:94-136 | the planet loop takes the sum of its planets' draws |
| DrawCounts.SystemPlanetsDraws | ProcGenUni/ProcGenUni.cpp:92-136 | the system expansion takes two draws plus its planets' draws |
| DrawCounts.WithoutStarDraws | ProcGenUni/ProcGenUni.cpp:59-77 | the no-star gates take four draws for a black hole, three for an asteroid, two otherwise |
| DrawCounts.WithStarDraws | ProcGenUni/ProcGenUni.cpp:80-136 | a star takes three draws, plus its system's draws in the full view |
| Properties.CoarseAgreesWithFull | ProcGenUni/ProcGenUni.cpp:84-86 | the galaxy view and the system view agree on everything but the planets and the final state; the galaxy view has no planets; without a star the two are identical |
| Properties.SameLowBitsSameSystem | ProcGenUni/ProcGenUni.cpp:55 | coordinates agreeing in their low 16 bits generate the same system |
| Properties.GenerateDrawCount | ProcGenUni/ProcGenUni.cpp:52-137 | the state a construction leaves behind is the seed moved on by one increment per draw made |
| Properties.GeneratedPlanetsLayout | ProcGenUni/ProcGenUni.cpp:92-136 | a constructed system has at most nine well-formed planets, each at least 60 from the star, with planet `j` at least `20 * (j - i)` beyond planet `i` |
| StarSystems.StarSystem.Rnd | ProcGenUni/ProcGenUni.cpp:175-184 | the method updates `procGen` in place and returns the value `RawDraw` specifies |
| StarSystems.StarSystem.RndInt | ProcGenUni/ProcGenUni.cpp:170-173 | the unsigned arithmetic gives `IntDraw`'s value, which lies in `[min, max)` |
| StarSystems.StarSystem.RndDouble | ProcGenUni/ProcGenUni.cpp:165-168 | gives `RealDraw`'s value, in `rndDouble`'s range |
| StarSystems.StarSystem.DrawMoons | ProcGenUni/ProcGenUni.cpp:126-132 | the moon loop produces the moons and final state of `Moons` |
| StarSystems.StarSystem.DrawPlanet | ProcGenUni/ProcGenUni.cpp:96-135 | one loop pass produces the planet, next distance and state of `PlanetAt` |
| StarSystems.StarSystem.ScaleShares | ProcGenUni/ProcGenUni.cpp:112-116 | the in-place scaling by `1 / sum` equals `Normalise` |
| StarSystems.StarSystem.AppendPlanet | ProcGenUni/ProcGenUni.cpp:96-135 | pushing one planet keeps the list plus the remaining passes equal to the whole loop's output |
| StarSystems.StarSystem.DrawPlanets | ProcGenUni/ProcGenUni.cpp:94-136 | the planet loop leaves the planet list and state of `Planets` |
| StarSystems.StarSystem.constructor | ProcGenUni/ProcGenUni.cpp:52-137 | the constructed fields match `Generate(x, y, full)`; `full` defaults to `false`, the galaxy view |
| StarSystems.StarSystem.NoStar | ProcGenUni/ProcGenUni.cpp:59-77 | the no-star branch leaves the fields of `WithoutStar` |
| StarSystems.StarSystem.DrawBlackHole | ProcGenUni/ProcGenUni.cpp:63-68 | the black-hole branch leaves the fields of `BlackHole` |
| StarSystems.StarSystem.GenerateStar | ProcGenUni/ProcGenUni.cpp:79-136 | the star branch leaves the fields of `WithStar` |
| StarSystems.StarSystem.DrawStar | ProcGenUni/ProcGenUni.cpp:80-82 | the star's draws leave the fields of the galaxy-view `WithStar` |
| StarSystems.StarSystem.DrawSystem | ProcGenUni/ProcGenUni.cpp:92-136 | the system expansion leaves the planet list and state of `SystemPlanets` |
| StarSystems.StarSystem.RingStyle | ProcGenUni/ProcGenUni.cpp:374-375 | the renderer's ring colour index and shape are the stream's next `rndInt(0, 2)` and `rndInt(0, 3)` values, so the index is in `[0, 2)` and the shape in `[0, 3)`, after two draws |
| StarSystems.StarSystem.MoonShade | ProcGenUni/ProcGenUni.cpp:434 | the renderer's moon shade is the stream's next `rndInt(0, 3)` value, in `[0, 3)`, after one draw |

## Left out

- The `olcGalaxy` renderer, its main loop and `main` are not modelled. Only the renderer's own
  draws on a constructed system are, as `RingStyle` and `MoonShade`. The pixel palettes
  (`g_ringColours`, `g_moonColours`, the supernova and black-hole colours) are not modelled.
- Colours are held as packed 32-bit words. `olc::WHITE` is `0xFFFFFFFF`, the value before a
  colour is drawn.
- IEEE double rounding: `rndDouble`, the distance sums, the normalisation and the temperature
  products are exact reals. The bounds are stated for exact arithmetic.
- Generation.Normalise: when the four composition draws are all zero, the source divides by
  zero and stores NaN. The model keeps the fractions as drawn instead.
- `starTemperature` and `blackHoleTemperature` are never initialised when their body does not
  exist. The model reads them as `None` (`Observed` ignores the field).
- `sPlanet.population` is a `double` that only ever holds a clamped `int`, so it is held as an
  `int`.
- The seed's mask, shift and `|` and the mixer's `>>` and `^` are computed arithmetically on
  exact integers. There are no bit-vector types; `Xor` is tied to `^` through `XorIsBitwise`.
- `starDiameter` and the other diameters are initialised with the float literal `0.0f`, which
  is exactly zero. It is modelled as `0.0`.
- The ring colour index is `rndInt(0, 2)`, so the third ring colour is never chosen.
  `RingStyle` states this as written.
