/// What every constructed star system satisfies, whatever the coordinate and the detail flag:
/// the classification gates exclude each other, the detail flag only adds planets, the planet
/// list is bounded and ordered, and the mixer moves on by a known count.
module Properties {
  import opened Mixer
  import opened Generation
  import opened DrawCounts

  /**
   * The galaxy view (`full == false`) and the system view see the same classification and star:
   * the full system differs from the coarse one only in its planets and the mixer state left
   * behind, and the coarse one has no planets.
   */
  lemma CoarseAgreesWithFull(x: Word, y: Word)
    ensures var coarse, full := Generate(x, y, false), Generate(x, y, true);
      && coarse.planets == []
      && full == coarse.(planets := full.planets, procGen := full.procGen)
      && (!coarse.starExists ==> full == coarse)
  {
  }

  /** Coordinates that agree in their low 16 bits generate the same system. */
  lemma SameLowBitsSameSystem(x: Word, y: Word, x': Word, y': Word, full: bool)
    requires x % 0x1_0000 == x' % 0x1_0000 && y % 0x1_0000 == y' % 0x1_0000
    ensures Generate(x, y, full) == Generate(x', y', full)
  {
    assert Seed(x, y) == Seed(x', y');
  }

  /**
   * The mixer state a constructed system leaves behind is the seed moved on by one increment
   * per draw: `seed + k * 0xe120fc15 (mod 2^32)` for the `k` draws the constructor made.
   */
  lemma GenerateDrawCount(x: Word, y: Word, full: bool)
    ensures var g := Generate(x, y, full);
      && g.procGen == Iterate(Seed(x, y), DrawsUsed(g, full))
      && g.procGen == AdvanceBy(Seed(x, y), DrawsUsed(g, full))
  {
    var s, g := Seed(x, y), Generate(x, y, full);
    var star := IntDraw(s, 0, 20);
    assert star.state == Iterate(s, 1);
    if star.value != 1 {
      assert g == WithoutStar(star.state);
      WithoutStarDraws(star.state);
    } else {
      assert g == WithStar(star.state, full);
      WithStarDraws(star.state, full);
    }
    IterateChain(s, 1, star.state, GateDraws(g, full), g.procGen, DrawsUsed(g, full));
    IterateClosedForm(s, DrawsUsed(g, full));
  }

  /**
   * The planets of a constructed system: at most nine, each well-formed and at least 60 from the
   * star, and a planet `j - i` places further out at least `20 * (j - i)` further away.
   */
  lemma GeneratedPlanetsLayout(x: Word, y: Word, full: bool)
    ensures var ps := Generate(x, y, full).planets;
      && |ps| <= 9
      && (forall p :: p in ps ==> WellFormedPlanet(p) && 60.0 <= p.distance)
      && (forall i, j :: 0 <= i <= j < |ps| ==> ps[i].distance + 20.0 * (j - i) as real <= ps[j].distance)
  {
    var ps := Generate(x, y, full).planets;
    OrbitsFromMeans(ps, 60.0);
    forall i, j | 0 <= i <= j < |ps|
      ensures ps[i].distance + 20.0 * (j - i) as real <= ps[j].distance
    {
      OrbitsSpread(ps, i, j);
    }
  }
}
