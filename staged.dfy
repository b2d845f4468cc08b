/** The staged reveal: every mesh of the pre-built model carries a level (stem 0, primary
    1, secondary 2, tertiary 3, cluster 4, flower 5); over AWESOME_GROWTH_DURATION the
    global progress `p` runs from 0 to 1 and level `L` grows during the window
    `[0.15 L, 0.15 L + 0.3]`, hidden before it and at full scale after it. */
module Staged {
  import opened Config

  datatype MeshKind = Stem | PrimaryBranch | SecondaryBranch | TertiaryBranch | FlowerCluster | Flower
  {
    /** The `userData.level` tag the builder gives each kind of mesh. */
    function Level(): nat
    {
      match this
      case Stem => 0
      case PrimaryBranch => 1
      case SecondaryBranch => 2
      case TertiaryBranch => 3
      case FlowerCluster => 4
      case Flower => 5
    }
  }

  /** What the reveal reads and writes of a mesh: its kind, `visible` and uniform scale. */
  datatype MeshState = MeshState(kind: MeshKind, visible: bool, scale: real)

  const LEVEL_STAGGER: real := 0.15
  const LEVEL_DURATION: real := 0.3

  /** `Math.max(0, Math.min(1, (p - 0.15 L) / 0.3))`. */
  function LevelProgress(p: real, level: nat): (lp: real)
    ensures 0.0 <= lp <= 1.0
    ensures lp > 0.0 <==> p > LEVEL_STAGGER * level as real
    ensures lp == 1.0 <==> p >= LEVEL_STAGGER * level as real + LEVEL_DURATION
  {
    var x := (p - LEVEL_STAGGER * level as real) / LEVEL_DURATION;
    if x < 0.0 then 0.0 else if 1.0 < x then 1.0 else x
  }

  /** A level grows monotonically with the global progress. */
  lemma LevelProgressMonotone(p1: real, p2: real, level: nat)
    requires p1 <= p2
    ensures LevelProgress(p1, level) <= LevelProgress(p2, level)
  {
  }

  /** Deeper levels never run ahead of shallower ones, so a child is never larger,
      in relative terms, than its parent. */
  lemma DeeperLevelsLag(p: real, shallow: nat, deep: nat)
    requires shallow <= deep
    ensures LevelProgress(p, deep) <= LevelProgress(p, shallow)
  {
  }

  /** Consecutive levels overlap: the next one starts halfway through this one. */
  lemma LevelsOverlap(level: nat)
    ensures LevelProgress(LEVEL_STAGGER * (level + 1) as real, level) == 0.5
  {
  }

  /** At the end of the reveal levels 0-4 are at full scale, but the flowers (level 5),
      whose window would end at 1.05, stop at five sixths. */
  lemma FinalProgress(level: nat)
    requires level <= 5
    ensures level <= 4 ==> LevelProgress(1.0, level) == 1.0
    ensures level == 5 ==> LevelProgress(1.0, level) == 5.0 / 6.0
  {
  }

  /** No progress up to 1 ever brings a flower to full scale. */
  lemma FlowersNeverFull(p: real)
    requires p <= 1.0
    ensures LevelProgress(p, Flower.Level()) <= 5.0 / 6.0
  {
  }

  /** One mesh in one frame: shown at scale `lp` when its level has started (the source's
      `lp < 1` and `lp == 1` branches both give `lp`), hidden with its scale untouched
      otherwise. */
  function RevealMesh(m: MeshState, p: real): (r: MeshState)
    ensures r.kind == m.kind
    ensures r.visible <==> p > LEVEL_STAGGER * m.kind.Level() as real
    ensures r.visible ==> 0.0 < r.scale <= 1.0
    ensures !r.visible ==> r.scale == m.scale
  {
    var lp := LevelProgress(p, m.kind.Level());
    if lp > 0.0 then MeshState(m.kind, true, if lp < 1.0 then lp else 1.0)
    else MeshState(m.kind, false, m.scale)
  }

  /** `allMeshes.forEach(...)` of one frame. */
  function Reveal(ms: seq<MeshState>, p: real): (r: seq<MeshState>)
    ensures |r| == |ms|
    ensures forall i :: 0 <= i < |ms| ==> r[i] == RevealMesh(ms[i], p)
  {
    seq(|ms|, i requires 0 <= i < |ms| => RevealMesh(ms[i], p))
  }

  /** Re-running a frame at the same progress changes nothing. */
  lemma RevealIdempotent(ms: seq<MeshState>, p: real)
    ensures Reveal(Reveal(ms, p), p) == Reveal(ms, p)
  {
  }

  /** Once shown, a mesh stays shown, and never shrinks, as the progress advances. */
  lemma RevealMonotone(m: MeshState, p1: real, p2: real)
    requires p1 <= p2
    requires RevealMesh(m, p1).visible
    ensures RevealMesh(m, p2).visible
    ensures RevealMesh(m, p1).scale <= RevealMesh(m, p2).scale
  {
    LevelProgressMonotone(p1, p2, m.kind.Level());
  }

  /** The first frame (progress 0) shows nothing, not even the stem. */
  lemma FirstFrameHidesAll(ms: seq<MeshState>)
    ensures forall i :: 0 <= i < |ms| ==> !Reveal(ms, 0.0)[i].visible
  {
  }

  /** The last frame shows everything: branches and clusters at scale 1, flowers at 5/6,
      whatever scale the builder gave them. */
  lemma LastFrameShowsAll(ms: seq<MeshState>)
    ensures forall i :: 0 <= i < |ms| ==> Reveal(ms, 1.0)[i].visible
    ensures forall i :: 0 <= i < |ms| && ms[i].kind != Flower ==> Reveal(ms, 1.0)[i].scale == 1.0
    ensures forall i :: 0 <= i < |ms| && ms[i].kind == Flower ==> Reveal(ms, 1.0)[i].scale == 5.0 / 6.0
  {
    forall i | 0 <= i < |ms| ensures Reveal(ms, 1.0)[i].visible {
      FinalProgress(ms[i].kind.Level());
    }
    forall i | 0 <= i < |ms| && ms[i].kind != Flower ensures Reveal(ms, 1.0)[i].scale == 1.0 {
      FinalProgress(ms[i].kind.Level());
    }
    forall i | 0 <= i < |ms| && ms[i].kind == Flower ensures Reveal(ms, 1.0)[i].scale == 5.0 / 6.0 {
      FinalProgress(ms[i].kind.Level());
    }
  }
}
