/** The staged mode's complete model: `generateCompleteFlowerModel` builds the stem,
    every primary with its secondaries, tertiaries and flower clusters, pushing each mesh
    onto `allMeshes` with its level tag, then hides them all; `startAwesomeGrowthAnimation`
    then re-runs the staged reveal on every frame. Geometry is the planner's (modules
    Topology and Branches); a mesh here keeps what the reveal reads and writes. */
module ModelBuild {
  import opened Config
  import opened Wrappers
  import opened Vectors
  import opened Topology
  import opened Growth
  import opened Staged

  /** A scene-graph object as the reveal sees it. The engine creates meshes visible at
      scale 1. */
  class Mesh {
    const kind: MeshKind
    var visible: bool
    var scale: real

    constructor (k: MeshKind, s: real)
      ensures kind == k && visible && scale == s
    {
      kind := k;
      visible := true;
      scale := s;
    }
  }

  function State(m: Mesh): MeshState
    reads m
  {
    MeshState(m.kind, m.visible, m.scale)
  }

  function Snapshot(ms: seq<Mesh>): (r: seq<MeshState>)
    reads set m | m in ms
    ensures |r| == |ms|
    ensures forall i :: 0 <= i < |ms| ==> r[i] == State(ms[i])
  {
    seq(|ms|, i reads set m | m in ms requires 0 <= i < |ms| => State(ms[i]))
  }

  /** `Math.floor(Math.random() * 4) + FLOWERS_PER_CLUSTER`. */
  function FlowerCount(draw: real): (n: nat)
    requires 0.0 <= draw < 1.0
    ensures FLOWERS_PER_CLUSTER <= n <= FLOWERS_PER_CLUSTER + 3
  {
    (draw * 4.0).Floor + FLOWERS_PER_CLUSTER
  }

  /** The random draws one cluster consumes that bear on the reveal: the flower count,
      then each flower's scale jitter. */
  datatype ClusterDraw = ClusterDraw(countDraw: real, scaleDraws: seq<real>)

  predicate ValidClusterDraw(d: ClusterDraw)
  {
    0.0 <= d.countDraw < 1.0 && |d.scaleDraws| == FlowerCount(d.countDraw) &&
    forall i :: 0 <= i < |d.scaleDraws| ==> 0.0 <= d.scaleDraws[i] < 1.0
  }

  /** A tertiary branch's draws: the cluster at its tip. */
  datatype TertiaryDraw = TertiaryDraw(tip: ClusterDraw)

  /** A secondary branch's draws: the cluster at its tip, then its tertiaries. */
  datatype SecondaryDraw = SecondaryDraw(tip: ClusterDraw, tertiaries: seq<TertiaryDraw>)

  /** A primary branch's draws: its secondaries, then its FLOWERS_PER_BRANCH clusters
      and the one at its tip. */
  datatype PrimaryDraw = PrimaryDraw(secondaries: seq<SecondaryDraw>, clusters: seq<ClusterDraw>)

  predicate ValidTertiaryDraws(ds: seq<TertiaryDraw>)
  {
    |ds| == NUM_TERTIARY_BRANCHES && forall i :: 0 <= i < |ds| ==> ValidClusterDraw(ds[i].tip)
  }

  predicate ValidSecondaryDraw(d: SecondaryDraw)
  {
    ValidClusterDraw(d.tip) && ValidTertiaryDraws(d.tertiaries)
  }

  predicate ValidPrimaryDraw(d: PrimaryDraw)
  {
    |d.secondaries| == NUM_SECONDARY_BRANCHES &&
    (forall i :: 0 <= i < |d.secondaries| ==> ValidSecondaryDraw(d.secondaries[i])) &&
    |d.clusters| == FLOWERS_PER_BRANCH + 1 &&
    forall i :: 0 <= i < |d.clusters| ==> ValidClusterDraw(d.clusters[i])
  }

  // The meshes each builder appends, in the order it appends them.

  function FlowerMeshes(scaleDraws: seq<real>): (r: seq<MeshState>)
    ensures |r| == |scaleDraws|
    ensures forall i :: 0 <= i < |r| ==>
      r[i].kind == Flower && r[i].visible && r[i].scale == FlowerScale(scaleDraws[i])
  {
    seq(|scaleDraws|, i requires 0 <= i < |scaleDraws| =>
      MeshState(Flower, true, FlowerScale(scaleDraws[i])))
  }

  lemma FlowerMeshesSnoc(scaleDraws: seq<real>, i: nat)
    requires i < |scaleDraws|
    ensures FlowerMeshes(scaleDraws[..i + 1]) ==
      FlowerMeshes(scaleDraws[..i]) + [MeshState(Flower, true, FlowerScale(scaleDraws[i]))]
  {
  }

  function ClusterMeshes(d: ClusterDraw): seq<MeshState>
  {
    [MeshState(FlowerCluster, true, 1.0)] + FlowerMeshes(d.scaleDraws)
  }

  function TertiaryMeshes(d: TertiaryDraw): seq<MeshState>
  {
    [MeshState(TertiaryBranch, true, 1.0)] + ClusterMeshes(d.tip)
  }

  function TertiariesMeshes(ds: seq<TertiaryDraw>): seq<MeshState>
  {
    if ds == [] then [] else TertiariesMeshes(ds[..|ds| - 1]) + TertiaryMeshes(ds[|ds| - 1])
  }

  function SecondaryMeshes(d: SecondaryDraw): seq<MeshState>
  {
    [MeshState(SecondaryBranch, true, 1.0)] + ClusterMeshes(d.tip) + TertiariesMeshes(d.tertiaries)
  }

  function SecondariesMeshes(ds: seq<SecondaryDraw>): seq<MeshState>
  {
    if ds == [] then [] else SecondariesMeshes(ds[..|ds| - 1]) + SecondaryMeshes(ds[|ds| - 1])
  }

  function ClustersMeshes(ds: seq<ClusterDraw>): seq<MeshState>
  {
    if ds == [] then [] else ClustersMeshes(ds[..|ds| - 1]) + ClusterMeshes(ds[|ds| - 1])
  }

  function PrimaryMeshes(d: PrimaryDraw): seq<MeshState>
  {
    [MeshState(PrimaryBranch, true, 1.0)] + SecondariesMeshes(d.secondaries) + ClustersMeshes(d.clusters)
  }

  function PrimariesMeshes(ds: seq<PrimaryDraw>): seq<MeshState>
  {
    if ds == [] then [] else PrimariesMeshes(ds[..|ds| - 1]) + PrimaryMeshes(ds[|ds| - 1])
  }

  lemma PrimariesSnoc(ds: seq<PrimaryDraw>, i: nat)
    requires i < |ds|
    ensures PrimariesMeshes(ds[..i + 1]) == PrimariesMeshes(ds[..i]) + PrimaryMeshes(ds[i])
  {
    assert ds[..i + 1][..i] == ds[..i];
  }

  lemma SecondariesSnoc(ds: seq<SecondaryDraw>, i: nat)
    requires i < |ds|
    ensures SecondariesMeshes(ds[..i + 1]) == SecondariesMeshes(ds[..i]) + SecondaryMeshes(ds[i])
  {
    assert ds[..i + 1][..i] == ds[..i];
  }

  lemma AppendAssoc(m: seq<MeshState>, a: seq<MeshState>, b: seq<MeshState>)
    ensures m + a + b == m + (a + b)
  {
  }

  lemma AppendThree(m: seq<MeshState>, a: seq<MeshState>, b: seq<MeshState>, c: seq<MeshState>)
    ensures m + a + b + c == m + (a + b + c)
  {
  }

  /** The whole model as built, before the hiding pass. */
  function ModelMeshes(ds: seq<PrimaryDraw>): seq<MeshState>
  {
    [MeshState(MeshKind.Stem, true, 1.0)] + PrimariesMeshes(ds)
  }

  /** The hiding pass at the end of `generateCompleteFlowerModel`. */
  function Hidden(ms: seq<MeshState>): (r: seq<MeshState>)
    ensures |r| == |ms|
    ensures forall i :: 0 <= i < |ms| ==> r[i] == ms[i].(visible := false)
  {
    seq(|ms|, i requires 0 <= i < |ms| => ms[i].(visible := false))
  }

  /** How many meshes of each kind a sequence holds. */
  datatype Tally = Tally(stems: nat, primaries: nat, secondaries: nat, tertiaries: nat, clusters: nat, flowers: nat)

  function Plus(a: Tally, b: Tally): Tally
  {
    Tally(a.stems + b.stems, a.primaries + b.primaries, a.secondaries + b.secondaries,
          a.tertiaries + b.tertiaries, a.clusters + b.clusters, a.flowers + b.flowers)
  }

  function Unit(k: MeshKind): Tally
  {
    match k
    case Stem => Tally(1, 0, 0, 0, 0, 0)
    case PrimaryBranch => Tally(0, 1, 0, 0, 0, 0)
    case SecondaryBranch => Tally(0, 0, 1, 0, 0, 0)
    case TertiaryBranch => Tally(0, 0, 0, 1, 0, 0)
    case FlowerCluster => Tally(0, 0, 0, 0, 1, 0)
    case Flower => Tally(0, 0, 0, 0, 0, 1)
  }

  function TallyOf(ms: seq<MeshState>): Tally
  {
    if ms == [] then Tally(0, 0, 0, 0, 0, 0) else Plus(Unit(ms[0].kind), TallyOf(ms[1..]))
  }

  /** The given numbers of stems, branches and clusters, and between FLOWERS_PER_CLUSTER
      and FLOWERS_PER_CLUSTER + 3 flowers per cluster. */
  predicate Shaped(t: Tally, stems: nat, primaries: nat, secondaries: nat, tertiaries: nat, clusters: nat)
  {
    t.stems == stems && t.primaries == primaries && t.secondaries == secondaries &&
    t.tertiaries == tertiaries && t.clusters == clusters &&
    FLOWERS_PER_CLUSTER * clusters <= t.flowers <= (FLOWERS_PER_CLUSTER + 3) * clusters
  }

  lemma {:induction false} TallyAppend(a: seq<MeshState>, b: seq<MeshState>)
    ensures TallyOf(a + b) == Plus(TallyOf(a), TallyOf(b))
    decreases |a|
  {
    if a == [] {
      assert a + b == b;
    } else {
      assert (a + b)[0] == a[0] && (a + b)[1..] == a[1..] + b;
      TallyAppend(a[1..], b);
    }
  }

  lemma TallyCons(x: MeshState, rest: seq<MeshState>)
    ensures TallyOf([x] + rest) == Plus(Unit(x.kind), TallyOf(rest))
  {
    assert ([x] + rest)[1..] == rest;
  }

  lemma {:induction false} FlowerMeshesTally(scaleDraws: seq<real>)
    requires forall i :: 0 <= i < |scaleDraws| ==> 0.0 <= scaleDraws[i] < 1.0
    ensures TallyOf(FlowerMeshes(scaleDraws)) == Tally(0, 0, 0, 0, 0, |scaleDraws|)
    decreases |scaleDraws|
  {
    if scaleDraws != [] {
      assert FlowerMeshes(scaleDraws)[1..] == FlowerMeshes(scaleDraws[1..]);
      FlowerMeshesTally(scaleDraws[1..]);
    }
  }

  /** A cluster is one group and FLOWERS_PER_CLUSTER to FLOWERS_PER_CLUSTER + 3 flowers. */
  lemma ClusterTally(d: ClusterDraw)
    requires ValidClusterDraw(d)
    ensures Shaped(TallyOf(ClusterMeshes(d)), 0, 0, 0, 0, 1)
  {
    TallyCons(MeshState(FlowerCluster, true, 1.0), FlowerMeshes(d.scaleDraws));
    FlowerMeshesTally(d.scaleDraws);
  }

  lemma TertiaryTally(d: TertiaryDraw)
    requires ValidClusterDraw(d.tip)
    ensures Shaped(TallyOf(TertiaryMeshes(d)), 0, 0, 0, 1, 1)
  {
    TallyCons(MeshState(TertiaryBranch, true, 1.0), ClusterMeshes(d.tip));
    ClusterTally(d.tip);
  }

  lemma {:induction false} TertiariesTally(ds: seq<TertiaryDraw>)
    requires forall i :: 0 <= i < |ds| ==> ValidClusterDraw(ds[i].tip)
    ensures Shaped(TallyOf(TertiariesMeshes(ds)), 0, 0, 0, |ds|, |ds|)
    decreases |ds|
  {
    if ds != [] {
      TertiariesTally(ds[..|ds| - 1]);
      TertiaryTally(ds[|ds| - 1]);
      TallyAppend(TertiariesMeshes(ds[..|ds| - 1]), TertiaryMeshes(ds[|ds| - 1]));
    }
  }

  /** A secondary: itself, its tip cluster, NUM_TERTIARY_BRANCHES tertiaries and theirs. */
  lemma SecondaryTally(d: SecondaryDraw)
    requires ValidSecondaryDraw(d)
    ensures Shaped(TallyOf(SecondaryMeshes(d)), 0, 0, 1, NUM_TERTIARY_BRANCHES, NUM_TERTIARY_BRANCHES + 1)
  {
    var x := MeshState(SecondaryBranch, true, 1.0);
    AppendAssoc([x], ClusterMeshes(d.tip), TertiariesMeshes(d.tertiaries));
    TallyCons(x, ClusterMeshes(d.tip) + TertiariesMeshes(d.tertiaries));
    TallyAppend(ClusterMeshes(d.tip), TertiariesMeshes(d.tertiaries));
    ClusterTally(d.tip);
    TertiariesTally(d.tertiaries);
  }

  lemma {:induction false} SecondariesTally(ds: seq<SecondaryDraw>)
    requires forall i :: 0 <= i < |ds| ==> ValidSecondaryDraw(ds[i])
    ensures Shaped(TallyOf(SecondariesMeshes(ds)), 0, 0, |ds|,
      |ds| * NUM_TERTIARY_BRANCHES, |ds| * (NUM_TERTIARY_BRANCHES + 1))
    decreases |ds|
  {
    if ds != [] {
      SecondariesTally(ds[..|ds| - 1]);
      SecondaryTally(ds[|ds| - 1]);
      TallyAppend(SecondariesMeshes(ds[..|ds| - 1]), SecondaryMeshes(ds[|ds| - 1]));
    }
  }

  lemma {:induction false} ClustersTally(ds: seq<ClusterDraw>)
    requires forall i :: 0 <= i < |ds| ==> ValidClusterDraw(ds[i])
    ensures Shaped(TallyOf(ClustersMeshes(ds)), 0, 0, 0, 0, |ds|)
    decreases |ds|
  {
    if ds != [] {
      ClustersTally(ds[..|ds| - 1]);
      ClusterTally(ds[|ds| - 1]);
      TallyAppend(ClustersMeshes(ds[..|ds| - 1]), ClusterMeshes(ds[|ds| - 1]));
    }
  }

  /** Clusters per primary: one per secondary, one per tertiary, FLOWERS_PER_BRANCH along
      the primary and one at its tip. */
  const CLUSTERS_PER_PRIMARY: nat :=
    NUM_SECONDARY_BRANCHES * (NUM_TERTIARY_BRANCHES + 1) + FLOWERS_PER_BRANCH + 1

  lemma PrimaryTally(d: PrimaryDraw)
    requires ValidPrimaryDraw(d)
    ensures Shaped(TallyOf(PrimaryMeshes(d)), 0, 1, NUM_SECONDARY_BRANCHES,
      NUM_SECONDARY_BRANCHES * NUM_TERTIARY_BRANCHES, CLUSTERS_PER_PRIMARY)
  {
    var x := MeshState(PrimaryBranch, true, 1.0);
    AppendAssoc([x], SecondariesMeshes(d.secondaries), ClustersMeshes(d.clusters));
    TallyCons(x, SecondariesMeshes(d.secondaries) + ClustersMeshes(d.clusters));
    TallyAppend(SecondariesMeshes(d.secondaries), ClustersMeshes(d.clusters));
    SecondariesTally(d.secondaries);
    ClustersTally(d.clusters);
  }

  lemma {:induction false} PrimariesTally(ds: seq<PrimaryDraw>)
    requires forall i :: 0 <= i < |ds| ==> ValidPrimaryDraw(ds[i])
    ensures Shaped(TallyOf(PrimariesMeshes(ds)), 0, |ds|, |ds| * NUM_SECONDARY_BRANCHES,
      |ds| * NUM_SECONDARY_BRANCHES * NUM_TERTIARY_BRANCHES, |ds| * CLUSTERS_PER_PRIMARY)
    decreases |ds|
  {
    if ds != [] {
      var n := |ds| - 1;
      PrimariesTally(ds[..n]);
      PrimaryTally(ds[n]);
      TallyAppend(PrimariesMeshes(ds[..n]), PrimaryMeshes(ds[n]));
      assert CLUSTERS_PER_PRIMARY == 14;
      assert |ds| * NUM_SECONDARY_BRANCHES == n * NUM_SECONDARY_BRANCHES + 3;
      assert |ds| * NUM_SECONDARY_BRANCHES * NUM_TERTIARY_BRANCHES == n * NUM_SECONDARY_BRANCHES * NUM_TERTIARY_BRANCHES + 6;
      assert |ds| * CLUSTERS_PER_PRIMARY == n * CLUSTERS_PER_PRIMARY + 14;
    }
  }

  /** The complete model: one stem, 20 primaries, 60 secondaries, 120 tertiaries and
      `N (F + 1) + N S + N S T` = 280 clusters holding 1680 to 2520 flowers. */
  lemma ModelTally(ds: seq<PrimaryDraw>)
    requires |ds| == NUM_BRANCHES && forall i :: 0 <= i < |ds| ==> ValidPrimaryDraw(ds[i])
    ensures Shaped(TallyOf(ModelMeshes(ds)), 1, NUM_BRANCHES, NUM_BRANCHES * NUM_SECONDARY_BRANCHES,
      NUM_BRANCHES * NUM_SECONDARY_BRANCHES * NUM_TERTIARY_BRANCHES,
      NUM_BRANCHES * (FLOWERS_PER_BRANCH + 1) + NUM_BRANCHES * NUM_SECONDARY_BRANCHES +
      NUM_BRANCHES * NUM_SECONDARY_BRANCHES * NUM_TERTIARY_BRANCHES)
    ensures TallyOf(ModelMeshes(ds)).clusters == 280
    ensures 1680 <= TallyOf(ModelMeshes(ds)).flowers <= 2520
  {
    TallyCons(MeshState(MeshKind.Stem, true, 1.0), PrimariesMeshes(ds));
    PrimariesTally(ds);
  }

  /** Hiding changes no mesh's kind, so the model's counts survive the build's last step. */
  lemma {:induction false} HiddenTally(ms: seq<MeshState>)
    ensures TallyOf(Hidden(ms)) == TallyOf(ms)
    decreases |ms|
  {
    if ms != [] {
      assert Hidden(ms)[1..] == Hidden(ms[1..]);
      HiddenTally(ms[1..]);
    }
  }

  predicate Distinct(ms: seq<Mesh>)
  {
    forall i, j :: 0 <= i < j < |ms| ==> ms[i] != ms[j]
  }

  /** The global mesh list of the staged mode with the completion flags the reveal sets. */
  class FlowerModel {
    var allMeshes: seq<Mesh>
    var isGenerating: bool
    var generationComplete: bool

    ghost predicate Valid()
      reads this
    {
      Distinct(allMeshes)
    }

    function Meshes(): seq<MeshState>
      reads this, set m | m in allMeshes
    {
      Snapshot(allMeshes)
    }

    constructor ()
      ensures Valid() && allMeshes == [] && isGenerating && !generationComplete
    {
      allMeshes := [];
      isGenerating := true;
      generationComplete := false;
    }

    /** Push one new mesh onto `allMeshes`. */
    method Push(kind: MeshKind, scale: real)
      requires Valid()
      modifies this
      ensures Valid()
      ensures |allMeshes| == |old(allMeshes)| + 1 && allMeshes[..|old(allMeshes)|] == old(allMeshes)
      ensures fresh(allMeshes[|allMeshes| - 1])
      ensures Meshes() == old(Meshes()) + [MeshState(kind, true, scale)]
      ensures isGenerating == old(isGenerating) && generationComplete == old(generationComplete)
      ensures forall m :: m in allMeshes ==> m in old(allMeshes) || fresh(m)
    {
      var m := new Mesh(kind, scale);
      allMeshes := allMeshes + [m];
    }

    /** `createStemModel`. */
    method CreateStemModel()
      requires Valid()
      modifies this
      ensures Valid()
      ensures Meshes() == old(Meshes()) + [MeshState(MeshKind.Stem, true, 1.0)]
      ensures isGenerating == old(isGenerating) && generationComplete == old(generationComplete)
      ensures forall m :: m in allMeshes ==> m in old(allMeshes) || fresh(m)
    {
      Push(MeshKind.Stem, 1.0);
    }

    /** `createFlowerClusterModel`: the cluster group, then its flowers with their jitter. */
    method CreateFlowerClusterModel(d: ClusterDraw)
      requires Valid() && ValidClusterDraw(d)
      modifies this
      ensures Valid()
      ensures Meshes() == old(Meshes()) + ClusterMeshes(d)
      ensures isGenerating == old(isGenerating) && generationComplete == old(generationComplete)
      ensures forall m :: m in allMeshes ==> m in old(allMeshes) || fresh(m)
    {
      Push(FlowerCluster, 1.0);
      var flowerCount := FlowerCount(d.countDraw);
      var i := 0;
      while i < flowerCount
        invariant 0 <= i <= flowerCount && Valid()
        invariant Meshes() == old(Meshes()) + [MeshState(FlowerCluster, true, 1.0)] + FlowerMeshes(d.scaleDraws[..i])
        invariant isGenerating == old(isGenerating) && generationComplete == old(generationComplete)
        invariant forall m :: m in allMeshes ==> m in old(allMeshes) || fresh(m)
      {
        Push(Flower, FlowerScale(d.scaleDraws[i]));
        FlowerMeshesSnoc(d.scaleDraws, i);
        AppendAssoc(old(Meshes()) + [MeshState(FlowerCluster, true, 1.0)], FlowerMeshes(d.scaleDraws[..i]),
          [MeshState(Flower, true, FlowerScale(d.scaleDraws[i]))]);
        i := i + 1;
      }
      assert d.scaleDraws[..i] == d.scaleDraws;
      AppendAssoc(old(Meshes()), [MeshState(FlowerCluster, true, 1.0)], FlowerMeshes(d.scaleDraws));
    }

    /** `createTertiaryBranchModel`: the branch, then the cluster at its tip. */
    method CreateTertiaryBranchModel(d: TertiaryDraw)
      requires Valid() && ValidClusterDraw(d.tip)
      modifies this
      ensures Valid()
      ensures Meshes() == old(Meshes()) + TertiaryMeshes(d)
      ensures isGenerating == old(isGenerating) && generationComplete == old(generationComplete)
      ensures forall m :: m in allMeshes ==> m in old(allMeshes) || fresh(m)
    {
      Push(TertiaryBranch, 1.0);
      CreateFlowerClusterModel(d.tip);
      AppendAssoc(old(Meshes()), [MeshState(TertiaryBranch, true, 1.0)], ClusterMeshes(d.tip));
    }

    /** `createTertiaryBranchesModel`: NUM_TERTIARY_BRANCHES tertiaries in order. */
    method CreateTertiaryBranchesModel(ds: seq<TertiaryDraw>)
      requires Valid() && ValidTertiaryDraws(ds)
      modifies this
      ensures Valid()
      ensures Meshes() == old(Meshes()) + TertiariesMeshes(ds)
      ensures isGenerating == old(isGenerating) && generationComplete == old(generationComplete)
      ensures forall m :: m in allMeshes ==> m in old(allMeshes) || fresh(m)
    {
      var i := 0;
      while i < NUM_TERTIARY_BRANCHES
        invariant 0 <= i <= NUM_TERTIARY_BRANCHES && Valid()
        invariant Meshes() == old(Meshes()) + TertiariesMeshes(ds[..i])
        invariant isGenerating == old(isGenerating) && generationComplete == old(generationComplete)
        invariant forall m :: m in allMeshes ==> m in old(allMeshes) || fresh(m)
      {
        CreateTertiaryBranchModel(ds[i]);
        assert ds[..i + 1][..i] == ds[..i];
        AppendAssoc(old(Meshes()), TertiariesMeshes(ds[..i]), TertiaryMeshes(ds[i]));
        i := i + 1;
      }
      assert ds[..i] == ds;
    }

    /** `createSecondaryBranchModel`: the branch, the cluster at its tip, its tertiaries. */
    method CreateSecondaryBranchModel(d: SecondaryDraw)
      requires Valid() && ValidSecondaryDraw(d)
      modifies this
      ensures Valid()
      ensures Meshes() == old(Meshes()) + SecondaryMeshes(d)
      ensures isGenerating == old(isGenerating) && generationComplete == old(generationComplete)
      ensures forall m :: m in allMeshes ==> m in old(allMeshes) || fresh(m)
    {
      Push(SecondaryBranch, 1.0);
      CreateFlowerClusterModel(d.tip);
      CreateTertiaryBranchesModel(d.tertiaries);
      AppendThree(old(Meshes()), [MeshState(SecondaryBranch, true, 1.0)], ClusterMeshes(d.tip),
        TertiariesMeshes(d.tertiaries));
    }

    /** `createSecondaryBranchesModel`: NUM_SECONDARY_BRANCHES secondaries in order. */
    method CreateSecondaryBranchesModel(ds: seq<SecondaryDraw>)
      requires Valid()
      requires |ds| == NUM_SECONDARY_BRANCHES && forall i :: 0 <= i < |ds| ==> ValidSecondaryDraw(ds[i])
      modifies this
      ensures Valid()
      ensures Meshes() == old(Meshes()) + SecondariesMeshes(ds)
      ensures isGenerating == old(isGenerating) && generationComplete == old(generationComplete)
      ensures forall m :: m in allMeshes ==> m in old(allMeshes) || fresh(m)
    {
      var i := 0;
      while i < NUM_SECONDARY_BRANCHES
        invariant 0 <= i <= NUM_SECONDARY_BRANCHES && Valid()
        invariant Meshes() == old(Meshes()) + SecondariesMeshes(ds[..i])
        invariant isGenerating == old(isGenerating) && generationComplete == old(generationComplete)
        invariant forall m :: m in allMeshes ==> m in old(allMeshes) || fresh(m)
      {
        CreateSecondaryBranchModel(ds[i]);
        SecondariesSnoc(ds, i);
        AppendAssoc(old(Meshes()), SecondariesMeshes(ds[..i]), SecondaryMeshes(ds[i]));
        i := i + 1;
      }
      assert ds[..i] == ds;
    }

    /** `createFlowersOnBranchModel`: FLOWERS_PER_BRANCH clusters along the branch, then
        the one at its tip. */
    method CreateFlowersOnBranchModel(ds: seq<ClusterDraw>)
      requires Valid()
      requires |ds| == FLOWERS_PER_BRANCH + 1 && forall i :: 0 <= i < |ds| ==> ValidClusterDraw(ds[i])
      modifies this
      ensures Valid()
      ensures Meshes() == old(Meshes()) + ClustersMeshes(ds)
      ensures isGenerating == old(isGenerating) && generationComplete == old(generationComplete)
      ensures forall m :: m in allMeshes ==> m in old(allMeshes) || fresh(m)
    {
      var i := 0;
      while i < FLOWERS_PER_BRANCH
        invariant 0 <= i <= FLOWERS_PER_BRANCH && Valid()
        invariant Meshes() == old(Meshes()) + ClustersMeshes(ds[..i])
        invariant isGenerating == old(isGenerating) && generationComplete == old(generationComplete)
        invariant forall m :: m in allMeshes ==> m in old(allMeshes) || fresh(m)
      {
        CreateFlowerClusterModel(ds[i]);
        assert ds[..i + 1][..i] == ds[..i];
        AppendAssoc(old(Meshes()), ClustersMeshes(ds[..i]), ClusterMeshes(ds[i]));
        i := i + 1;
      }
      CreateFlowerClusterModel(ds[FLOWERS_PER_BRANCH]);
      AppendAssoc(old(Meshes()), ClustersMeshes(ds[..FLOWERS_PER_BRANCH]), ClusterMeshes(ds[FLOWERS_PER_BRANCH]));
      assert ds[..FLOWERS_PER_BRANCH + 1][..FLOWERS_PER_BRANCH] == ds[..FLOWERS_PER_BRANCH];
      assert ds[..FLOWERS_PER_BRANCH + 1] == ds;
    }

    /** `createBranchModel`: the primary, its secondaries, then its clusters. */
    method CreateBranchModel(d: PrimaryDraw)
      requires Valid() && ValidPrimaryDraw(d)
      modifies this
      ensures Valid()
      ensures Meshes() == old(Meshes()) + PrimaryMeshes(d)
      ensures isGenerating == old(isGenerating) && generationComplete == old(generationComplete)
      ensures forall m :: m in allMeshes ==> m in old(allMeshes) || fresh(m)
    {
      Push(PrimaryBranch, 1.0);
      CreateSecondaryBranchesModel(d.secondaries);
      CreateFlowersOnBranchModel(d.clusters);
      AppendThree(old(Meshes()), [MeshState(PrimaryBranch, true, 1.0)], SecondariesMeshes(d.secondaries),
        ClustersMeshes(d.clusters));
    }

    /** `generateCompleteFlowerModel`: the stem, one primary per planned branch, then
        every mesh hidden. The stem this builds always has its curve, so the plan has
        NUM_BRANCHES entries. */
    method GenerateCompleteFlowerModel(stem: Stem, sampler: Sampler, outward: seq<Vec3>, ds: seq<PrimaryDraw>)
      requires Valid() && allMeshes == []
      requires stem.curve.Some? && SamplesUnitInterval(sampler) && |outward| == NUM_BRANCHES
      requires |ds| == NUM_BRANCHES && forall i :: 0 <= i < |ds| ==> ValidPrimaryDraw(ds[i])
      modifies this
      ensures Valid()
      ensures Meshes() == Hidden(ModelMeshes(ds))
      ensures isGenerating == old(isGenerating) && generationComplete == old(generationComplete)
      ensures forall m :: m in allMeshes ==> m in old(allMeshes) || fresh(m)
    {
      assert Meshes() == [];
      CreateStemModel();
      var branches := PrepareBranchPositions(Some(stem), sampler, outward);
      CreateBranchModels(ds);
      assert Meshes() == ModelMeshes(ds) by {
        assert [] + [MeshState(MeshKind.Stem, true, 1.0)] == [MeshState(MeshKind.Stem, true, 1.0)];
      }
      HideAll();
    }

    /** `branches.forEach(branch => createBranchModel(...))` over the planned primaries,
        one set of draws per branch. */
    method CreateBranchModels(ds: seq<PrimaryDraw>)
      requires Valid() && forall i :: 0 <= i < |ds| ==> ValidPrimaryDraw(ds[i])
      modifies this
      ensures Valid()
      ensures Meshes() == old(Meshes()) + PrimariesMeshes(ds)
      ensures isGenerating == old(isGenerating) && generationComplete == old(generationComplete)
      ensures forall m :: m in allMeshes ==> m in old(allMeshes) || fresh(m)
    {
      var i := 0;
      while i < |ds|
        invariant 0 <= i <= |ds| && Valid()
        invariant Meshes() == old(Meshes()) + PrimariesMeshes(ds[..i])
        invariant isGenerating == old(isGenerating) && generationComplete == old(generationComplete)
        invariant forall m :: m in allMeshes ==> m in old(allMeshes) || fresh(m)
      {
        CreateBranchModel(ds[i]);
        PrimariesSnoc(ds, i);
        AppendAssoc(old(Meshes()), PrimariesMeshes(ds[..i]), PrimaryMeshes(ds[i]));
        i := i + 1;
      }
      assert ds[..i] == ds;
    }

    /** `allMeshes.forEach(mesh => { mesh.visible = false; })`. */
    method HideAll()
      requires Valid()
      modifies set m | m in allMeshes
      ensures Valid()
      ensures Meshes() == Hidden(old(Meshes()))
    {
      var i := 0;
      while i < |allMeshes|
        invariant 0 <= i <= |allMeshes|
        invariant forall k :: 0 <= k < i ==> State(allMeshes[k]) == old(State(allMeshes[k])).(visible := false)
        invariant forall k :: i <= k < |allMeshes| ==> State(allMeshes[k]) == old(State(allMeshes[k]))
      {
        allMeshes[i].visible := false;
        i := i + 1;
      }
    }

    /** One call of the reveal's `animateGrowth`, `elapsed` milliseconds after it
        started: every mesh is revealed for the current progress, and the flags are set
        once the progress reaches 1; `requestFrame` tells whether another frame is asked. */
    method RevealFrame(elapsed: real) returns (requestFrame: bool)
      requires Valid()
      modifies this, set m | m in allMeshes
      ensures Valid() && allMeshes == old(allMeshes)
      ensures Meshes() == Reveal(old(Meshes()), Progress(elapsed, AWESOME_GROWTH_DURATION))
      ensures requestFrame <==> elapsed < AWESOME_GROWTH_DURATION
      ensures requestFrame ==>
        isGenerating == old(isGenerating) && generationComplete == old(generationComplete)
      ensures !requestFrame ==> !isGenerating && generationComplete
    {
      var progress := Progress(elapsed, AWESOME_GROWTH_DURATION);
      var i := 0;
      while i < |allMeshes|
        invariant 0 <= i <= |allMeshes| && allMeshes == old(allMeshes)
        invariant isGenerating == old(isGenerating) && generationComplete == old(generationComplete)
        invariant forall k :: 0 <= k < i ==> State(allMeshes[k]) == RevealMesh(old(State(allMeshes[k])), progress)
        invariant forall k :: i <= k < |allMeshes| ==> State(allMeshes[k]) == old(State(allMeshes[k]))
      {
        var mesh := allMeshes[i];
        var levelProgress := LevelProgress(progress, mesh.kind.Level());
        if levelProgress > 0.0 {
          mesh.visible := true;
          if levelProgress < 1.0 {
            mesh.scale := levelProgress;
          } else {
            mesh.scale := 1.0;
          }
        } else {
          mesh.visible := false;
        }
        i := i + 1;
      }
      requestFrame := progress < 1.0;
      if !requestFrame {
        isGenerating := false;
        generationComplete := true;
      }
    }
  }
}
