/** The topology planner: where primary branches leave the stem, where secondary and
    tertiary branches leave their parent, and where flower clusters sit on a primary.
    Every attachment is a parameter `t` along the parent's curve; sampling the curve,
    `normalize` and the quaternion rotations are the engine's and come in as inputs. */
module Topology {
  import opened Config
  import opened Vectors
  import opened Wrappers
  import opened Sorting
  import opened Branches

  /** A parent curve: the Catmull-Rom spline through these control points. */
  datatype Curve = Curve(points: seq<Vec3>)

  /** The engine's arc-length sampling of a curve, position and unit tangent at `t`. */
  datatype Sampler = Sampler(pointAt: (Curve, real) --> Vec3, tangentAt: (Curve, real) --> Vec3)

  /** The sampler is defined on `[0, 1]`, and only there may the core sample. */
  ghost predicate SamplesUnitInterval(s: Sampler) {
    forall c, t :: 0.0 <= t <= 1.0 ==> s.pointAt.requires(c, t) && s.tangentAt.requires(c, t)
  }

  /** `lo + (i / n) * span`: the i-th of `n` evenly spaced parameters of a window. */
  function Spaced(lo: real, span: real, i: nat, n: nat): real
    requires n > 0
  {
    lo + (i as real / n as real) * span
  }

  lemma SpacedInWindow(lo: real, span: real, i: nat, n: nat)
    requires i < n && span > 0.0
    ensures lo <= Spaced(lo, span, i, n) < lo + span
  {
    var q := i as real / n as real;
    assert 0.0 <= q < 1.0 by { assert q * n as real == i as real; }
    MulPositive(q, span);
    MulPositive(1.0 - q, span);
    assert span - q * span == (1.0 - q) * span;
  }

  lemma SpacedIncreasing(lo: real, span: real, i: nat, j: nat, n: nat)
    requires i < j && n > 0 && span > 0.0
    ensures Spaced(lo, span, i, n) < Spaced(lo, span, j, n)
  {
    var qi, qj := i as real / n as real, j as real / n as real;
    DivStrictMono(i as real, j as real, n as real);
    MulPositive(qj - qi, span);
    assert qj * span - qi * span == (qj - qi) * span;
  }

  /** Attachment windows: primaries on the stem at `0.3 + 0.7 i/N`, secondaries on a
      primary at `0.3 + 0.5 i/S`, tertiaries on a secondary at `0.4 + 0.4 i/T`. */
  function AttachLo(tier: Tier): real {
    match tier
    case Primary => 0.3
    case Secondary => 0.3
    case Tertiary => 0.4
  }

  function AttachSpan(tier: Tier): real {
    match tier
    case Primary => 0.7
    case Secondary => 0.5
    case Tertiary => 0.4
  }

  /** How many branches of the tier one parent carries. */
  function Count(tier: Tier): nat {
    match tier
    case Primary => NUM_BRANCHES
    case Secondary => NUM_SECONDARY_BRANCHES
    case Tertiary => NUM_TERTIARY_BRANCHES
  }

  function AttachT(tier: Tier, i: nat): real
    requires Count(tier) > 0
  {
    Spaced(AttachLo(tier), AttachSpan(tier), i, Count(tier))
  }

  /** Primary branches: `[0.3, 1.0)`, secondaries `[0.3, 0.8)`, tertiaries `[0.4, 0.8)`,
      strictly increasing with the index, so inside the sampler's domain. */
  lemma AttachTInWindow(tier: Tier, i: nat, j: nat)
    requires i < j < Count(tier)
    ensures AttachLo(tier) <= AttachT(tier, i) < AttachT(tier, j) < AttachLo(tier) + AttachSpan(tier)
    ensures AttachLo(tier) + AttachSpan(tier) <= 1.0
  {
    SpacedInWindow(AttachLo(tier), AttachSpan(tier), i, Count(tier));
    SpacedInWindow(AttachLo(tier), AttachSpan(tier), j, Count(tier));
    SpacedIncreasing(AttachLo(tier), AttachSpan(tier), i, j, Count(tier));
  }

  lemma AttachTInUnit(tier: Tier, i: nat)
    requires i < Count(tier)
    ensures AttachLo(tier) <= AttachT(tier, i) < AttachLo(tier) + AttachSpan(tier) <= 1.0
  {
    SpacedInWindow(AttachLo(tier), AttachSpan(tier), i, Count(tier));
  }

  /** The taper of primary `i`: `1.0 - (i / N) * 0.3`. */
  function PrimaryScale(i: nat): real {
    1.0 - (i as real / NUM_BRANCHES as real) * 0.3
  }

  /** The taper stays in `(0.7, 1.0]`, starts at 1 and never grows up the stem. */
  lemma PrimaryScaleTapers(i: nat, j: nat)
    requires i <= j < NUM_BRANCHES
    ensures 0.7 < PrimaryScale(j) <= PrimaryScale(i) <= 1.0
    ensures PrimaryScale(0) == 1.0
  {
    SpacedInWindow(0.0, 0.3, j, NUM_BRANCHES);
    SpacedInWindow(0.0, 0.3, i, NUM_BRANCHES);
    if i < j { SpacedIncreasing(0.0, 0.3, i, j, NUM_BRANCHES); }
  }

  /** The golden-angle placement of primary `i`, in degrees (the script converts to
      radians with `PI / 180`). */
  function GoldenAngleDegrees(i: nat): real {
    i as real * 137.5
  }

  /** No two of the NUM_BRANCHES primaries share a radial direction: their golden
      angles never differ by a whole number of turns. */
  lemma GoldenAnglesDistinct(i: nat, j: nat, turns: int)
    requires i < j < NUM_BRANCHES
    ensures GoldenAngleDegrees(j) - GoldenAngleDegrees(i) != 360.0 * turns as real
  {
  }

  /** One entry of the primary plan. */
  datatype BranchSpec = BranchSpec(
    point: Vec3, direction: Vec3, angleDegrees: real, scale: real, tangent: Vec3, heightPercentage: real)

  /** The stem as the planner sees it: its curve, if built, and its tube radius. */
  datatype Stem = Stem(curve: Option<Curve>, radius: real)

  /** Primary `i`: sampled on the stem at its height fraction and pushed out along the
      outward direction (`outward`, the normalised radial vector with its random upward
      bias) by 0.8 of the stem radius. */
  function PlannedBranch(curve: Curve, radius: real, sampler: Sampler, outward: Vec3, i: nat): (b: BranchSpec)
    requires SamplesUnitInterval(sampler) && i < NUM_BRANCHES
    ensures 0.3 <= b.heightPercentage < 1.0 && 0.7 < b.scale <= 1.0
    ensures b.angleDegrees == 137.5 * i as real
    ensures b.point == AddScaled(sampler.pointAt(curve, b.heightPercentage), outward, radius * 0.8)
    ensures b.tangent == sampler.tangentAt(curve, b.heightPercentage) && b.direction == outward
  {
    AttachTInUnit(Primary, i);
    PrimaryScaleTapers(i, i);
    var h := AttachT(Primary, i);
    BranchSpec(AddScaled(sampler.pointAt(curve, h), outward, radius * 0.8), outward,
               GoldenAngleDegrees(i), PrimaryScale(i), sampler.tangentAt(curve, h), h)
  }

  function HeightKey(b: BranchSpec): real {
    b.heightPercentage
  }

  /** `prepareBranchPositions`: nothing without a stem curve; otherwise one entry per
      primary, pushed in index order and then sorted by height, which keeps the order. */
  method PrepareBranchPositions(stem: Option<Stem>, sampler: Sampler, outward: seq<Vec3>)
    returns (branches: seq<BranchSpec>)
    requires SamplesUnitInterval(sampler)
    requires |outward| == NUM_BRANCHES
    ensures stem.None? || stem.value.curve.None? ==> branches == []
    ensures stem.Some? && stem.value.curve.Some? ==>
      |branches| == NUM_BRANCHES &&
      forall i :: 0 <= i < NUM_BRANCHES ==>
        branches[i] == PlannedBranch(stem.value.curve.value, stem.value.radius, sampler, outward[i], i)
    ensures forall i :: 0 <= i < |branches| ==>
      0.3 <= branches[i].heightPercentage < 1.0 && 0.7 < branches[i].scale <= 1.0 &&
      branches[i].angleDegrees == 137.5 * i as real
    ensures forall i, j :: 0 <= i < j < |branches| ==>
      branches[i].heightPercentage < branches[j].heightPercentage && branches[j].scale <= branches[i].scale
  {
    if stem.None? || stem.value.curve.None? {
      return [];
    }
    var curve, radius := stem.value.curve.value, stem.value.radius;
    branches := [];
    var i := 0;
    while i < NUM_BRANCHES
      invariant 0 <= i <= NUM_BRANCHES && |branches| == i
      invariant forall k :: 0 <= k < i ==> branches[k] == PlannedBranch(curve, radius, sampler, outward[k], k)
    {
      branches := branches + [PlannedBranch(curve, radius, sampler, outward[i], i)];
      i := i + 1;
    }
    PlanOrdered(curve, radius, sampler, outward, branches);
    SortBySortedIsIdentity(branches, HeightKey);
    branches := SortBy(branches, HeightKey);
  }

  /** The heights of the plan strictly increase and its scales never do. */
  lemma PlanOrdered(curve: Curve, radius: real, sampler: Sampler, outward: seq<Vec3>, branches: seq<BranchSpec>)
    requires SamplesUnitInterval(sampler) && |outward| == NUM_BRANCHES && |branches| == NUM_BRANCHES
    requires forall k :: 0 <= k < NUM_BRANCHES ==> branches[k] == PlannedBranch(curve, radius, sampler, outward[k], k)
    ensures SortedBy(branches, HeightKey)
    ensures forall i :: 0 <= i < |branches| ==>
      0.3 <= branches[i].heightPercentage < 1.0 && 0.7 < branches[i].scale <= 1.0 &&
      branches[i].angleDegrees == 137.5 * i as real
    ensures forall i, j :: 0 <= i < j < |branches| ==>
      branches[i].heightPercentage < branches[j].heightPercentage && branches[j].scale <= branches[i].scale
  {
    forall i | 0 <= i < |branches|
      ensures 0.3 <= branches[i].heightPercentage < 1.0 && 0.7 < branches[i].scale <= 1.0
    {
      AttachTInUnit(Primary, i);
      PrimaryScaleTapers(i, i);
    }
    forall i, j | 0 <= i < j < |branches|
      ensures branches[i].heightPercentage < branches[j].heightPercentage && branches[j].scale <= branches[i].scale
    {
      AttachTInWindow(Primary, i, j);
      PrimaryScaleTapers(i, j);
    }
  }

  /** `parentBranch.userData.scale || 1.0`: a missing (or zero) stored scale reads as 1. */
  function StoredScaleOrOne(stored: Option<real>): real {
    if stored.None? || stored.value == 0.0 then 1.0 else stored.value
  }

  /** A child's scale relative to its parent's: 0.4 for secondaries, 0.6 for tertiaries. */
  function ChildScaleFactor(tier: Tier): real
    requires !tier.Primary?
  {
    if tier.Secondary? then 0.4 else 0.6
  }

  /** The scale a child of a parent at `parentScale` is created with. */
  function ChildScale(tier: Tier, parentScale: real): real
    requires !tier.Primary?
  {
    parentScale * ChildScaleFactor(tier)
  }

  /** A child lies in the tier's attachment window, which ends by the parent's tip, and
      carries the tier's share of its parent's scale. */
  predicate InWindow(tier: Tier, c: ChildSpec, parentScale: real)
    requires !tier.Primary?
  {
    AttachLo(tier) <= c.t < AttachLo(tier) + AttachSpan(tier) <= 1.0 && c.scale == ChildScale(tier, parentScale)
  }

  /** A parent branch as its children's planner sees it: its curve (if kept), the scale
      it stored, and its tube radius. */
  datatype ParentBranch = ParentBranch(curve: Option<Curve>, storedScale: Option<real>, radius: real)

  /** The engine's part of placing child `i`: the random angle (in turns) and, from it,
      the rotated perpendicular and the normalised blend of it with "up". */
  datatype Placement = Placement(angleTurns: real, perpendicular: Vec3, direction: Vec3)

  datatype ChildSpec = ChildSpec(point: Vec3, direction: Vec3, angleTurns: real, scale: real, t: real)

  /** Child `i`: sampled on the parent at its attachment parameter and pushed out along
      the perpendicular by 0.9 of the parent's tube radius. */
  function PlannedChild(tier: Tier, curve: Curve, parentScale: real, radius: real,
                        sampler: Sampler, placement: Placement, i: nat): (c: ChildSpec)
    requires !tier.Primary? && i < Count(tier) && SamplesUnitInterval(sampler)
    ensures InWindow(tier, c, parentScale)
    ensures c.point == AddScaled(sampler.pointAt(curve, c.t), placement.perpendicular, radius * 0.9)
    ensures c.direction == placement.direction && c.angleTurns == placement.angleTurns
  {
    AttachTInUnit(tier, i);
    var t := AttachT(tier, i);
    ChildSpec(AddScaled(sampler.pointAt(curve, t), placement.perpendicular, radius * 0.9),
              placement.direction, placement.angleTurns, ChildScale(tier, parentScale), t)
  }

  /** The attachment loop of `addSecondaryBranches` and `addTertiaryBranchesWithAnimation`
      (and of the builders that create each child as soon as it is placed): nothing for a
      parent without a curve, otherwise one child per index in ascending `t`, each at the
      parent's scale times the tier's factor. */
  method PlanChildBranches(tier: Tier, parent: ParentBranch, sampler: Sampler, placements: seq<Placement>)
    returns (children: seq<ChildSpec>)
    requires !tier.Primary? && SamplesUnitInterval(sampler) && |placements| == Count(tier)
    ensures parent.curve.None? ==> children == []
    ensures parent.curve.Some? ==> (
      |children| == Count(tier) &&
      forall i :: 0 <= i < |children| ==> (children[i] ==
        PlannedChild(tier, parent.curve.value, StoredScaleOrOne(parent.storedScale), parent.radius, sampler, placements[i], i)))
    ensures forall i :: 0 <= i < |children| ==>
      InWindow(tier, children[i], StoredScaleOrOne(parent.storedScale))
    ensures forall i, j :: 0 <= i < j < |children| ==> children[i].t < children[j].t
  {
    if parent.curve.None? {
      children := [];
      assert |children| == 0;
    } else {
      children := ChildCandidates(tier, parent, sampler, placements);
      ChildrenInWindow(tier, parent, sampler, placements, children);
    }
  }

  /** The loop itself: child `i` is planned at index `i`. */
  method ChildCandidates(tier: Tier, parent: ParentBranch, sampler: Sampler, placements: seq<Placement>)
    returns (children: seq<ChildSpec>)
    requires !tier.Primary? && SamplesUnitInterval(sampler) && |placements| == Count(tier)
    requires parent.curve.Some?
    ensures |children| == Count(tier)
    ensures forall i :: 0 <= i < |children| ==> (children[i] ==
      PlannedChild(tier, parent.curve.value, StoredScaleOrOne(parent.storedScale), parent.radius, sampler, placements[i], i))
  {
    var curve, parentScale, radius := parent.curve.value, StoredScaleOrOne(parent.storedScale), parent.radius;
    children := [];
    var i := 0;
    while i < Count(tier)
      invariant 0 <= i <= Count(tier) && |children| == i
      invariant forall k :: 0 <= k < i ==>
        children[k] == PlannedChild(tier, curve, parentScale, radius, sampler, placements[k], k)
    {
      children := children + [PlannedChild(tier, curve, parentScale, radius, sampler, placements[i], i)];
      i := i + 1;
    }
  }

  /** Planned children sit inside the tier's attachment window, in ascending order, all
      at the same scale. */
  lemma ChildrenInWindow(tier: Tier, parent: ParentBranch, sampler: Sampler, placements: seq<Placement>,
                         children: seq<ChildSpec>)
    requires !tier.Primary? && SamplesUnitInterval(sampler) && |placements| == Count(tier)
    requires parent.curve.Some? && |children| == Count(tier)
    requires forall i :: 0 <= i < |children| ==> (children[i] ==
      PlannedChild(tier, parent.curve.value, StoredScaleOrOne(parent.storedScale), parent.radius, sampler, placements[i], i))
    ensures forall i :: 0 <= i < |children| ==>
      InWindow(tier, children[i], StoredScaleOrOne(parent.storedScale))
    ensures forall i, j :: 0 <= i < j < |children| ==> children[i].t < children[j].t
  {
    forall i, j | 0 <= i < j < |children| ensures children[i].t < children[j].t {
      AttachTInWindow(tier, i, j);
    }
    forall i | 0 <= i < |children|
      ensures InWindow(tier, children[i], StoredScaleOrOne(parent.storedScale))
    {
      AttachTInUnit(tier, i);
    }
  }

  /** A flower cluster to create: where, facing which tangent, how large, and at which
      parameter of its branch. */
  datatype ClusterSpec = ClusterSpec(position: Vec3, direction: Vec3, scale: real, t: real)

  /** Cluster `i < FLOWERS_PER_BRANCH` of a primary sits at `0.4 + 0.6 i/F`. */
  function ClusterT(i: nat): real {
    Spaced(0.4, 0.6, i, FLOWERS_PER_BRANCH)
  }

  lemma ClusterTInWindow(i: nat, j: nat)
    requires i < j < FLOWERS_PER_BRANCH
    ensures 0.4 <= ClusterT(i) < ClusterT(j) < 1.0
  {
    SpacedInWindow(0.4, 0.6, i, FLOWERS_PER_BRANCH);
    SpacedInWindow(0.4, 0.6, j, FLOWERS_PER_BRANCH);
    SpacedIncreasing(0.4, 0.6, i, j, FLOWERS_PER_BRANCH);
  }

  /** The clusters of a primary of the given scale: FLOWERS_PER_BRANCH along it at 0.8 of
      its scale, then the tip cluster at `t = 1` at its full scale. */
  function PlannedCluster(curve: Curve, sampler: Sampler, scale: real, i: nat): (c: ClusterSpec)
    requires SamplesUnitInterval(sampler) && i <= FLOWERS_PER_BRANCH
    ensures 0.4 <= c.t <= 1.0
    ensures c.t == 1.0 <==> i == FLOWERS_PER_BRANCH
    ensures c.scale == if i < FLOWERS_PER_BRANCH then scale * 0.8 else scale
    ensures c.position == sampler.pointAt(curve, c.t) && c.direction == sampler.tangentAt(curve, c.t)
  {
    if i < FLOWERS_PER_BRANCH then
      SpacedInWindow(0.4, 0.6, i, FLOWERS_PER_BRANCH);
      var t := ClusterT(i);
      ClusterSpec(sampler.pointAt(curve, t), sampler.tangentAt(curve, t), scale * 0.8, t)
    else
      ClusterSpec(sampler.pointAt(curve, 1.0), sampler.tangentAt(curve, 1.0), scale, 1.0)
  }

  function ClusterKey(c: ClusterSpec): real {
    c.t
  }

  /** The list `addFlowersToBranch` builds: nothing without a curve; otherwise the
      FLOWERS_PER_BRANCH clusters and the tip, sorted by `t`, which leaves them in
      creation order with the tip last. */
  method PlanClusters(curve: Option<Curve>, sampler: Sampler, scale: real) returns (clusters: seq<ClusterSpec>)
    requires SamplesUnitInterval(sampler)
    ensures curve.None? ==> clusters == []
    ensures curve.Some? ==> (
      |clusters| == FLOWERS_PER_BRANCH + 1 &&
      forall i :: 0 <= i <= FLOWERS_PER_BRANCH ==> clusters[i] == PlannedCluster(curve.value, sampler, scale, i))
    ensures forall i, j :: 0 <= i < j < |clusters| ==> clusters[i].t < clusters[j].t
    ensures forall i :: 0 <= i < |clusters| ==> 0.4 <= clusters[i].t <= 1.0
    ensures curve.Some? ==> clusters[FLOWERS_PER_BRANCH].t == 1.0 && clusters[FLOWERS_PER_BRANCH].scale == scale
  {
    clusters := [];
    if curve.None? {
      return;
    }
    var pending := ClusterCandidates(curve.value, sampler, scale);
    ClustersOrdered(curve.value, sampler, scale, pending);
    clusters := SortBy(pending, ClusterKey);
    SortedUnchanged(pending, clusters);
  }

  /** The loop of addFlowersToBranch that samples the flower
      clusters along a branch, followed by the cluster at the tip. */
  method ClusterCandidates(curve: Curve, sampler: Sampler, scale: real) returns (pending: seq<ClusterSpec>)
    requires SamplesUnitInterval(sampler)
    ensures |pending| == FLOWERS_PER_BRANCH + 1
    ensures forall k :: 0 <= k <= FLOWERS_PER_BRANCH ==> pending[k] == PlannedCluster(curve, sampler, scale, k)
  {
    pending := [];
    var i := 0;
    while i < FLOWERS_PER_BRANCH
      invariant 0 <= i <= FLOWERS_PER_BRANCH && |pending| == i
      invariant forall k :: 0 <= k < i ==> pending[k] == PlannedCluster(curve, sampler, scale, k)
    {
      pending := pending + [PlannedCluster(curve, sampler, scale, i)];
      i := i + 1;
    }
    pending := pending + [PlannedCluster(curve, sampler, scale, FLOWERS_PER_BRANCH)];
  }

  lemma SortedUnchanged(pending: seq<ClusterSpec>, clusters: seq<ClusterSpec>)
    requires SortedBy(pending, ClusterKey) && clusters == SortBy(pending, ClusterKey)
    ensures clusters == pending
  {
    SortBySortedIsIdentity(pending, ClusterKey);
  }

  lemma ClustersOrdered(curve: Curve, sampler: Sampler, scale: real, clusters: seq<ClusterSpec>)
    requires SamplesUnitInterval(sampler) && |clusters| == FLOWERS_PER_BRANCH + 1
    requires forall k :: 0 <= k <= FLOWERS_PER_BRANCH ==> clusters[k] == PlannedCluster(curve, sampler, scale, k)
    ensures SortedBy(clusters, ClusterKey)
    ensures forall i, j :: 0 <= i < j < |clusters| ==> clusters[i].t < clusters[j].t
    ensures forall i :: 0 <= i < |clusters| ==> 0.4 <= clusters[i].t <= 1.0
  {
    forall i, j | 0 <= i < j < |clusters| ensures clusters[i].t < clusters[j].t {
      if j < FLOWERS_PER_BRANCH { ClusterTInWindow(i, j); }
      else { SpacedInWindow(0.4, 0.6, i, FLOWERS_PER_BRANCH); }
    }
    forall i | 0 <= i < |clusters| ensures 0.4 <= clusters[i].t <= 1.0 {
      if i < FLOWERS_PER_BRANCH { SpacedInWindow(0.4, 0.6, i, FLOWERS_PER_BRANCH); }
    }
  }
}
