/** The branch generator: a branch of a tier is a centerline through `segments + 1`
    control points that leaves `start` along `direction` for `length` units and bends
    sideways in x and z only. The spline through the points and the tube mesh around
    it belong to the rendering engine and are not modelled. */
module Branches {
  import opened Config
  import opened Vectors

  datatype Tier = Primary | Secondary | Tertiary {

    /** Segments of the control polygon: 6, 4 and 3 (7, 5 and 4 points). */
    function Segments(): nat {
      match this
      case Primary => 6
      case Secondary => 4
      case Tertiary => 3
    }

    /** The length is `(LengthBase + draw * LengthSpan) * scale`. */
    function LengthBase(): real {
      match this
      case Primary => 2.0
      case Secondary => 0.8
      case Tertiary => 0.6
    }

    function LengthSpan(): real {
      match this
      case Primary => 1.0
      case Secondary => 0.6
      case Tertiary => 0.4
    }

    /** Tube radius relative to `STEM_RADIUS * scale`. */
    function RadiusFactor(): real {
      match this
      case Primary => 0.4
      case Secondary => 0.25
      case Tertiary => 0.15
    }

    /** Largest sideways bend of one control point, for a branch of the given scale. */
    function BendBound(scale: real): real {
      match this
      case Primary => 0.4
      case Secondary => 0.15 * scale
      case Tertiary => 0.1 * scale
    }
  }

  lemma MulPositive(a: real, b: real)
    requires a >= 0.0 && b > 0.0
    ensures a * b >= 0.0 && (a > 0.0 ==> a * b > 0.0)
  {
  }

  /** Scaling by a positive factor keeps `lo <= k < hi`. */
  lemma MulBetween(lo: real, k: real, hi: real, scale: real)
    requires lo <= k < hi && scale > 0.0
    ensures lo * scale <= k * scale < hi * scale
  {
    MulPositive(k - lo, scale);
    MulPositive(hi - k, scale);
    assert (k - lo) * scale == k * scale - lo * scale;
    assert (hi - k) * scale == hi * scale - k * scale;
  }

  /** The random draw behind a branch's length, in [0, 1). */
  function BranchLength(tier: Tier, draw: real, scale: real): (length: real)
    requires 0.0 <= draw < 1.0 && scale > 0.0
    ensures tier.LengthBase() * scale <= length < (tier.LengthBase() + tier.LengthSpan()) * scale
  {
    LengthWithin(tier.LengthBase(), tier.LengthSpan(), draw, scale);
    (tier.LengthBase() + draw * tier.LengthSpan()) * scale
  }

  lemma LengthWithin(base: real, span: real, draw: real, scale: real)
    requires 0.0 <= draw < 1.0 && scale > 0.0 && span > 0.0
    ensures base * scale <= (base + draw * span) * scale < (base + span) * scale
  {
    MulBetween(0.0, draw, 1.0, span);
    MulBetween(base, base + draw * span, base + span, scale);
  }

  function TubeRadius(tier: Tier, scale: real): (radius: real)
    requires scale > 0.0
    ensures 0.0 < radius <= STEM_RADIUS * scale * 0.4
  {
    STEM_RADIUS * tier.RadiusFactor() * scale
  }

  /** The sideways offset of one control point. */
  datatype Bend = Bend(dx: real, dz: real)

  /** The values behind one point's bend: `sinT` and `cosT` stand for `sin(t*PI)` and
      `cos(t*PI)`, `r1` and `r2` for the random draws (a primary draws one per axis,
      the other tiers one shared factor). */
  datatype BendDraw = BendDraw(sinT: real, cosT: real, r1: real, r2: real)

  predicate ValidBendDraw(d: BendDraw) {
    -1.0 <= d.sinT <= 1.0 && -1.0 <= d.cosT <= 1.0 && 0.0 <= d.r1 < 1.0 && 0.0 <= d.r2 < 1.0
  }

  lemma MulNonNegative(a: real, b: real)
    requires a >= 0.0 && b >= 0.0
    ensures a * b >= 0.0
  {
  }

  /** `|w * f| < bound` whenever `|w| <= 1` and `0 <= f < bound`. */
  lemma ScaledUnitBelow(w: real, f: real, bound: real)
    requires -1.0 <= w <= 1.0 && 0.0 <= f < bound
    ensures -bound < w * f < bound
  {
    MulNonNegative(1.0 - w, f);
    MulNonNegative(1.0 + w, f);
    assert (1.0 - w) * f == f - w * f;
    assert (1.0 + w) * f == f + w * f;
  }

  /** The weight of the sideways bend in x (`axis` false) or z (`axis` true): a primary
      draws `r * 0.3 + 0.1` per axis, the thinner tiers one shared `r * c * scale`. */
  function BendFactor(tier: Tier, d: BendDraw, scale: real, axis: bool): (f: real)
    requires ValidBendDraw(d) && scale > 0.0
    ensures 0.0 <= f < tier.BendBound(scale)
  {
    match tier
    case Primary => (if axis then d.r2 else d.r1) * 0.3 + 0.1
    case Secondary => SharedFactor(d.r1, 0.15, scale)
    case Tertiary => SharedFactor(d.r1, 0.1, scale)
  }

  function SharedFactor(r: real, c: real, scale: real): (f: real)
    requires 0.0 <= r < 1.0 && c > 0.0 && scale > 0.0
    ensures 0.0 <= f < c * scale
  {
    SharedFactorBelow(r, c, scale);
    r * c * scale
  }

  /** `r * c * scale` lies in `[0, c * scale)`. */
  lemma SharedFactorBelow(r: real, c: real, scale: real)
    requires 0.0 <= r < 1.0 && c > 0.0 && scale > 0.0
    ensures 0.0 <= r * c * scale < c * scale
  {
    assert r * c * scale == r * (c * scale);
    MulPositive(c, scale);
    MulPositive(1.0 - r, c * scale);
    MulPositive(r, c * scale);
    assert c * scale - r * (c * scale) == (1.0 - r) * (c * scale);
  }

  /** The bend of one control point: `sin(t*PI)` weights x, `cos(t*PI)` weights z, and
      neither offset reaches the tier's bound. */
  function BendOf(tier: Tier, d: BendDraw, scale: real): (b: Bend)
    requires ValidBendDraw(d) && scale > 0.0
    ensures -tier.BendBound(scale) < b.dx < tier.BendBound(scale)
    ensures -tier.BendBound(scale) < b.dz < tier.BendBound(scale)
  {
    var fx, fz := BendFactor(tier, d, scale, false), BendFactor(tier, d, scale, true);
    ScaledUnitBelow(d.sinT, fx, tier.BendBound(scale));
    ScaledUnitBelow(d.cosT, fz, tier.BendBound(scale));
    Bend(d.sinT * fx, d.cosT * fz)
  }

  /** The point at fraction `t` of a straight, unbent branch. */
  function StraightPoint(start: Vec3, direction: Vec3, length: real, t: real): Vec3 {
    AddScaled(start, direction, t * length)
  }

  /** The straight point with a bend added to its x and z. */
  function BentPoint(start: Vec3, direction: Vec3, length: real, t: real, bend: Bend): Vec3 {
    var s := StraightPoint(start, direction, length, t);
    Vec3(s.x + bend.dx, s.y, s.z + bend.dz)
  }

  /** The loop shared by every branch builder: point 0 is a copy of `start`; point `i`
      is the straight point at `t = i / segments` with the bend added to x and z. */
  method ControlPoints(start: Vec3, direction: Vec3, length: real, bends: seq<Bend>, segments: nat)
    returns (points: seq<Vec3>)
    requires segments > 0 && |bends| == segments + 1
    ensures |points| == segments + 1
    ensures points[0] == start
    ensures forall i :: 0 < i <= segments ==>
      points[i] == BentPoint(start, direction, length, i as real / segments as real, bends[i])
  {
    points := [];
    var i := 0;
    while i <= segments
      invariant 0 <= i <= segments + 1 && |points| == i
      invariant i > 0 ==> points[0] == start
      invariant forall k :: 0 < k < i ==>
        points[k] == BentPoint(start, direction, length, k as real / segments as real, bends[k])
    {
      var t := i as real / segments as real;
      var point := start;
      if i > 0 {
        point := BentPoint(point, direction, length, t, bends[i]);
      }
      points := points + [point];
      i := i + 1;
    }
  }

  lemma DivStrictMono(x: real, y: real, n: real)
    requires x < y && n > 0.0
    ensures x / n < y / n
  {
    var q := y / n - x / n;
    assert q * n == y - x;
    PositiveFactor(q, n);
  }

  lemma PositiveFactor(q: real, n: real)
    requires n > 0.0 && q * n > 0.0
    ensures q > 0.0
  {
  }

  /** A branch that points upwards rises monotonically: the y-coordinates of its control
      points strictly increase, since the bend never touches y. */
  lemma {:induction false} ControlPointsRise(start: Vec3, direction: Vec3, length: real,
                                             bends: seq<Bend>, segments: nat, points: seq<Vec3>, i: nat, j: nat)
    requires segments > 0 && |bends| == segments + 1 && |points| == segments + 1
    requires points[0] == start
    requires forall k :: 0 < k <= segments ==>
      points[k] == BentPoint(start, direction, length, k as real / segments as real, bends[k])
    requires direction.y > 0.0 && length > 0.0
    requires i < j <= segments
    ensures points[i].y < points[j].y
  {
    var n := segments as real;
    var ti, tj := i as real / n, j as real / n;
    assert ti < tj by { DivStrictMono(i as real, j as real, n); }
    assert points[j] == BentPoint(start, direction, length, tj, bends[j]);
    LineRises(start, direction, length, ti, tj, bends[j]);
    if i > 0 {
      assert points[i] == BentPoint(start, direction, length, ti, bends[i]);
      BentY(start, direction, length, ti, bends[i]);
    } else {
      assert ti == 0.0;
    }
  }

  /** Further along an upward branch is higher, whatever the bend. */
  lemma LineRises(start: Vec3, direction: Vec3, length: real, ti: real, tj: real, bend: Bend)
    requires ti < tj && direction.y > 0.0 && length > 0.0
    ensures start.y + (direction.y * length) * ti < BentPoint(start, direction, length, tj, bend).y
  {
    var c := direction.y * length;
    MulPositive(direction.y, length);
    BentY(start, direction, length, tj, bend);
    MulBetween(ti, ti, tj, c);
  }

  /** The bend leaves y on the straight line: `start.y + (dir.y * length) * t`. */
  lemma BentY(start: Vec3, direction: Vec3, length: real, t: real, bend: Bend)
    ensures BentPoint(start, direction, length, t, bend).y == start.y + (direction.y * length) * t
  {
    assert direction.y * (t * length) == (direction.y * length) * t;
  }

  /** The tip of a branch is displaced from its start by `length` along `direction`,
      give or take one bend, which is confined to x and z. */
  lemma TipDisplacement(tier: Tier, start: Vec3, direction: Vec3, length: real,
                        bends: seq<Bend>, points: seq<Vec3>, scale: real)
    requires |bends| == tier.Segments() + 1 && |points| == tier.Segments() + 1
    requires forall k :: 0 < k <= tier.Segments() ==>
      points[k] == BentPoint(start, direction, length, k as real / tier.Segments() as real, bends[k])
    requires forall k :: 0 <= k < |bends| ==>
      -tier.BendBound(scale) < bends[k].dx < tier.BendBound(scale) &&
      -tier.BendBound(scale) < bends[k].dz < tier.BendBound(scale)
    ensures var tip, far := points[tier.Segments()], Add(start, Scale(direction, length));
      tip.y == far.y &&
      -tier.BendBound(scale) < tip.x - far.x < tier.BendBound(scale) &&
      -tier.BendBound(scale) < tip.z - far.z < tier.BendBound(scale)
  {
    var n := tier.Segments();
    assert n as real / n as real == 1.0;
    assert 1.0 * length == length;
    assert 0 <= n < |bends|;
  }
}
