/** The wave-front scheduler of the sequential mode: primaries are started in waves of
    PARALLEL_BRANCHES, a wave starts 100 ms after every branch of the previous one has
    reported completion, and generation is flagged complete 300 ms after the last wave.
    Children report to their parent through a completion counter, and flower clusters
    (and the flowers of a cluster) are created one at a time. Timers become explicit
    transitions: a pending `setTimeout` is a phase, its expiry a method call. */
module Scheduler {
  import opened Config
  import opened Vectors
  import opened Wrappers
  import opened Topology

  function Min(a: int, b: int): int { if a <= b then a else b }

  /** `s.slice(lo, hi)`, which clips both ends to the sequence. */
  function Slice<T>(s: seq<T>, lo: nat, hi: nat): (r: seq<T>)
    ensures |r| == if lo < |s| && lo <= hi then Min(hi, |s|) - lo else 0
    ensures forall k :: 0 <= k < |r| ==> r[k] == s[lo + k]
    ensures lo <= hi <= |s| ==> r + s[hi..] == s[lo..]
  {
    if lo < |s| && lo <= hi then s[lo..Min(hi, |s|)] else []
  }

  /** The suffix from `i`, empty once `i` has run past the end. */
  function Drop<T>(s: seq<T>, i: nat): (r: seq<T>)
    ensures i <= |s| ==> r == s[i..]
    ensures |s| <= i ==> r == []
  {
    if i <= |s| then s[i..] else []
  }

  /** Reference definition of the waves: consecutive runs of `width` elements,
      the last one possibly shorter. */
  function Chunks<T>(s: seq<T>, width: nat): seq<seq<T>>
    requires width > 0
    decreases |s|
  {
    if |s| == 0 then []
    else if |s| <= width then [s]
    else [s[..width]] + Chunks(s[width..], width)
  }

  function Flatten<T>(groups: seq<seq<T>>): seq<T>
  {
    if groups == [] then [] else groups[0] + Flatten(groups[1..])
  }

  lemma {:induction false} FlattenAppend<T>(a: seq<seq<T>>, b: seq<seq<T>>)
    ensures Flatten(a + b) == Flatten(a) + Flatten(b)
  {
    if a == [] {
      assert a + b == b;
    } else {
      assert (a + b)[0] == a[0] && (a + b)[1..] == a[1..] + b;
      FlattenAppend(a[1..], b);
    }
  }

  /** Concatenating the waves gives back the plan, in order. */
  lemma {:induction false} FlattenChunks<T>(s: seq<T>, width: nat)
    requires width > 0
    ensures Flatten(Chunks(s, width)) == s
    decreases |s|
  {
    if |s| > width {
      FlattenChunks(s[width..], width);
      assert s == s[..width] + s[width..];
    }
  }

  /** Every wave is non-empty and at most `width` long, and all but the last are full. */
  lemma {:induction false} ChunksShape<T>(s: seq<T>, width: nat)
    requires width > 0
    ensures forall i :: 0 <= i < |Chunks(s, width)| ==> 0 < |Chunks(s, width)[i]| <= width
    ensures forall i :: 0 <= i < |Chunks(s, width)| - 1 ==> |Chunks(s, width)[i]| == width
    decreases |s|
  {
    if |s| > width {
      ChunksShape(s[width..], width);
      var rest := Chunks(s[width..], width);
      assert Chunks(s, width) == [s[..width]] + rest;
      forall i | 0 < i < |Chunks(s, width)| ensures Chunks(s, width)[i] == rest[i - 1] { }
    }
  }

  /** There are `ceil(|s| / width)` waves; no wave at all for an empty plan. */
  lemma {:induction false} ChunksCount<T>(s: seq<T>, width: nat)
    requires width > 0
    ensures |Chunks(s, width)| == (|s| + width - 1) / width
    decreases |s|
  {
    if |s| > width {
      ChunksCount(s[width..], width);
      assert (|s| + width - 1) / width == (|s| - width + width - 1) / width + 1 by {
        DivShift(|s| - width + width - 1, width);
      }
    } else if |s| > 0 {
      assert (|s| + width - 1) / width == 1 by { DivOne(|s| + width - 1, width); }
    } else {
      assert (width - 1) / width == 0;
    }
  }

  lemma DivShift(a: nat, width: nat)
    requires width > 0
    ensures (a + width) / width == a / width + 1
  {
    assert a + width == (a / width + 1) * width + a % width;
    DivUnique(a + width, width, a / width + 1, a % width);
  }

  /** Euclidean division has one quotient for a given remainder range. */
  lemma DivUnique(n: nat, width: nat, q: int, r: int)
    requires width > 0 && 0 <= r < width && n == q * width + r
    ensures n / width == q
  {
    var q0, r0 := n / width, n % width;
    assert (q - q0) * width == r0 - r;
    assert (q0 - q) * width == r - r0;
    MulAtLeast(q - q0, width);
    MulAtLeast(q0 - q, width);
  }

  lemma MulAtLeast(k: int, width: nat)
    requires width > 0
    ensures k >= 1 ==> k * width >= width
  {
  }

  lemma DivOne(a: nat, width: nat)
    requires width > 0 && width <= a < 2 * width
    ensures a / width == 1
  {
  }

  /** With the configured constants the twenty primaries come in two waves of ten. */
  lemma ConfiguredWaves<T>(plan: seq<T>)
    requires |plan| == NUM_BRANCHES
    ensures |Chunks(plan, PARALLEL_BRANCHES)| == 2
    ensures forall i :: 0 <= i < 2 ==> |Chunks(plan, PARALLEL_BRANCHES)[i]| == PARALLEL_BRANCHES
  {
    ChunksCount(plan, PARALLEL_BRANCHES);
    ChunksShape(plan, PARALLEL_BRANCHES);
    FlattenChunks(plan, PARALLEL_BRANCHES);
    var c := Chunks(plan, PARALLEL_BRANCHES);
    assert Flatten(c) == c[0] + Flatten(c[1..]);
    assert Flatten(c[1..]) == c[1] + Flatten(c[2..]);
  }

  lemma {:induction false} ChunksUnfold<T>(s: seq<T>, i: nat, width: nat)
    requires width > 0 && i < |s|
    ensures Chunks(Drop(s, i), width) == [Slice(s, i, i + width)] + Chunks(Drop(s, i + width), width)
  {
    if |s| - i <= width {
      assert Drop(s, i + width) == [];
      assert Min(i + width, |s|) == |s| && s[i..|s|] == s[i..];
    } else {
      assert s[i..][..width] == s[i..i + width];
      assert s[i..][width..] == s[i + width..];
    }
  }

  lemma SplitStep<T>(plan: seq<T>, i: nat, width: nat, groups: seq<seq<T>>)
    requires width > 0 && i < |plan|
    requires groups + Chunks(Drop(plan, i), width) == Chunks(plan, width)
    ensures (groups + [Slice(plan, i, i + width)]) + Chunks(Drop(plan, i + width), width) == Chunks(plan, width)
  {
    ChunksUnfold(plan, i, width);
    assert groups + ([Slice(plan, i, i + width)] + Chunks(Drop(plan, i + width), width))
      == (groups + [Slice(plan, i, i + width)]) + Chunks(Drop(plan, i + width), width);
  }

  /** The loop of `generateBranchesSequentially` that cuts the plan into waves with
      `slice(i, i + PARALLEL_BRANCHES)`. */
  method SplitIntoGroups<T>(plan: seq<T>, width: nat) returns (groups: seq<seq<T>>)
    requires width > 0
    ensures groups == Chunks(plan, width)
  {
    groups := [];
    var i := 0;
    SplitStart(plan, width);
    while i < |plan|
      invariant groups + Chunks(Drop(plan, i), width) == Chunks(plan, width)
      decreases |plan| - i
    {
      SplitStep(plan, i, width, groups);
      groups := groups + [Slice(plan, i, i + width)];
      i := i + width;
    }
    SplitEnd(plan, i, width, groups);
  }

  lemma SplitStart<T>(plan: seq<T>, width: nat)
    requires width > 0
    ensures [] + Chunks(Drop(plan, 0), width) == Chunks(plan, width)
  {
    assert Drop(plan, 0) == plan;
  }

  lemma SplitEnd<T>(plan: seq<T>, i: nat, width: nat, groups: seq<seq<T>>)
    requires width > 0 && |plan| <= i
    requires groups + Chunks(Drop(plan, i), width) == Chunks(plan, width)
    ensures groups == Chunks(plan, width)
  {
    assert Drop(plan, i) == [];
    assert groups + [] == groups;
  }

  lemma FlattenPrefixStep<T>(groups: seq<seq<T>>, k: nat)
    requires k < |groups|
    ensures Flatten(groups[..k + 1]) == Flatten(groups[..k]) + groups[k]
  {
    assert groups[..k + 1] == groups[..k] + [groups[k]];
    FlattenAppend(groups[..k], [groups[k]]);
    assert Flatten([groups[k]]) == groups[k] + Flatten([]);
  }

  /** Which timer of the scheduler is pending, or what it is waiting for. */
  datatype Phase =
    | NextGroupDue   // `generateNextGroup` is about to run (first call, or its 100 ms timer)
    | GroupRunning   // the branches of the current wave are growing
    | FinishDue      // the 300 ms timer that flags completion is pending
    | Finished

  /** The closure state of `generateBranchesSequentially` together with the global
      flags and counter it updates. */
  class WaveScheduler {
    var groups: seq<seq<BranchSpec>>
    var currentGroupIndex: nat
    var branchesCompleteInGroup: nat
    var branchesGenerated: nat
    var isGenerating: bool
    var generationComplete: bool
    var phase: Phase
    /** The branch plan the waves were cut from. */
    ghost var plan: seq<BranchSpec>

    ghost predicate Valid()
      reads this
    {
      groups == Chunks(plan, PARALLEL_BRANCHES) &&
      currentGroupIndex <= |groups| &&
      (phase == GroupRunning ==>
        currentGroupIndex < |groups| && branchesCompleteInGroup < |groups[currentGroupIndex]|) &&
      (phase == FinishDue || phase == Finished ==> currentGroupIndex == |groups|) &&
      branchesGenerated ==
        |Flatten(groups[..currentGroupIndex])| + (if phase == GroupRunning then branchesCompleteInGroup else 0) &&
      (generationComplete <==> phase == Finished) &&
      (isGenerating <==> phase != Finished)
    }

    /** `startGeneration` followed by `generateBranchesSequentially`: plan the primaries,
        cut them into waves and start the first one. */
    constructor (stem: Option<Stem>, sampler: Sampler, outward: seq<Vec3>)
      requires SamplesUnitInterval(sampler)
      requires |outward| == NUM_BRANCHES
      ensures Valid()
      ensures currentGroupIndex == 0 && branchesGenerated == 0
      ensures stem.Some? && stem.value.curve.Some? ==>
        |plan| == NUM_BRANCHES && |groups| == 2 &&
        phase == GroupRunning && branchesCompleteInGroup == 0
      ensures stem.None? || stem.value.curve.None? ==> plan == [] && groups == [] && phase == FinishDue
    {
      var branches := PrepareBranchPositions(stem, sampler, outward);
      var waves := SplitIntoGroups(branches, PARALLEL_BRANCHES);
      ConfiguredWavesIfPlanned(branches);
      plan := branches;
      groups := waves;
      currentGroupIndex := 0;
      branchesCompleteInGroup := 0;
      branchesGenerated := 0;
      isGenerating := true;
      generationComplete := false;
      phase := NextGroupDue;
      new;
      var started := GenerateNextGroup();
    }

    /** `generateNextGroup`: start every branch of the current wave, or, when none is
        left, arm the timer that flags completion. Returns the branches started. */
    method GenerateNextGroup() returns (started: seq<BranchSpec>)
      requires Valid() && phase == NextGroupDue
      modifies this
      ensures Valid()
      ensures groups == old(groups) && plan == old(plan)
      ensures currentGroupIndex == old(currentGroupIndex) && branchesGenerated == old(branchesGenerated)
      ensures old(currentGroupIndex) < |groups| ==>
        phase == GroupRunning && branchesCompleteInGroup == 0 && started == groups[currentGroupIndex]
      ensures old(currentGroupIndex) == |groups| ==>
        phase == FinishDue && started == [] && branchesGenerated == |plan|
    {
      if currentGroupIndex >= |groups| {
        FlattenChunks(plan, PARALLEL_BRANCHES);
        assert groups[..currentGroupIndex] == groups;
        phase := FinishDue;
        return [];
      }
      ChunksShape(plan, PARALLEL_BRANCHES);
      started := groups[currentGroupIndex];
      branchesCompleteInGroup := 0;
      phase := GroupRunning;
    }

    /** The completion callback of one branch of the current wave; the wave ends, and
        the next call of `generateNextGroup` is scheduled, when the counter reaches the
        wave's size. Each started branch reports once, so the counter stays below it. */
    method BranchComplete()
      requires Valid() && phase == GroupRunning
      modifies this
      ensures Valid()
      ensures groups == old(groups) && plan == old(plan)
      ensures branchesGenerated == old(branchesGenerated) + 1
      ensures old(branchesCompleteInGroup) + 1 >= |groups[old(currentGroupIndex)]| ==>
        phase == NextGroupDue && currentGroupIndex == old(currentGroupIndex) + 1
      ensures old(branchesCompleteInGroup) + 1 < |groups[old(currentGroupIndex)]| ==>
        phase == GroupRunning && currentGroupIndex == old(currentGroupIndex) &&
        branchesCompleteInGroup == old(branchesCompleteInGroup) + 1
    {
      FlattenPrefixStep(groups, currentGroupIndex);
      branchesCompleteInGroup := branchesCompleteInGroup + 1;
      branchesGenerated := branchesGenerated + 1;
      if branchesCompleteInGroup >= |groups[currentGroupIndex]| {
        currentGroupIndex := currentGroupIndex + 1;
        phase := NextGroupDue;
      }
    }

    /** The 300 ms timer armed after the last wave. */
    method FinishTimeout()
      requires Valid() && phase == FinishDue
      modifies this
      ensures Valid()
      ensures phase == Finished && !isGenerating && generationComplete
      ensures branchesGenerated == |plan|
      ensures groups == old(groups) && plan == old(plan) && branchesGenerated == old(branchesGenerated)
    {
      FlattenChunks(plan, PARALLEL_BRANCHES);
      assert groups[..currentGroupIndex] == groups;
      isGenerating := false;
      generationComplete := true;
      phase := Finished;
    }
  }

  lemma ConfiguredWavesIfPlanned(branches: seq<BranchSpec>)
    ensures |branches| == NUM_BRANCHES ==> |Chunks(branches, PARALLEL_BRANCHES)| == 2
    ensures branches == [] ==> Chunks(branches, PARALLEL_BRANCHES) == []
  {
    if |branches| == NUM_BRANCHES { ConfiguredWaves(branches); }
  }

  /** The counter of `addSecondaryBranches` and `addTertiaryBranchesWithAnimation`:
      the parent's continuation runs once every child has reported, or at once when
      there are no children (including a parent without a curve). */
  class CompletionGate {
    const total: nat
    var completedCount: nat
    /** How many times the parent's continuation has been invoked. */
    var continuations: nat

    ghost predicate Valid()
      reads this
    {
      completedCount <= total &&
      continuations == (if completedCount >= total then 1 else 0)
    }

    constructor (children: nat)
      ensures Valid() && total == children && completedCount == 0
      ensures continuations == 1 <==> children == 0
    {
      total := children;
      completedCount := 0;
      continuations := if children == 0 then 1 else 0;
    }

    /** One child's completion callback; `fired` tells whether it ran the continuation. */
    method ChildComplete() returns (fired: bool)
      requires Valid() && completedCount < total
      modifies this
      ensures Valid()
      ensures completedCount == old(completedCount) + 1
      ensures fired <==> completedCount == total
      ensures continuations == old(continuations) + (if fired then 1 else 0)
    {
      completedCount := completedCount + 1;
      fired := completedCount >= total;
      if fired {
        continuations := continuations + 1;
      }
    }
  }

  /** What `createNextCluster` / `createNextFlower` is doing. */
  datatype CursorPhase =
    | ItemDue       // the next item is about to be created (first call, or its timer)
    | ItemRunning   // the current item is growing
    | Done          // the continuation has been invoked

  /** The one-at-a-time creation of `addFlowersToBranch` (clusters, 50 / ANIMATION_SPEED ms
      apart) and of `createFlowerCluster` (flowers, 20 / ANIMATION_SPEED ms apart). */
  class SequentialCursor<T> {
    var items: seq<T>
    var currentIndex: nat
    var phase: CursorPhase
    /** The items created so far, in creation order. */
    ghost var created: seq<T>

    ghost predicate Valid()
      reads this
    {
      currentIndex <= |items| &&
      (phase == ItemRunning ==> currentIndex < |items|) &&
      (phase == Done ==> currentIndex == |items|) &&
      created == items[..if phase == ItemRunning then currentIndex + 1 else currentIndex]
    }

    constructor (queue: seq<T>)
      ensures Valid() && items == queue && currentIndex == 0 && created == []
      ensures phase == ItemDue
    {
      items := queue;
      currentIndex := 0;
      phase := ItemDue;
      created := [];
    }

    /** `createNextCluster`: create the item at the cursor, or finish when none is left. */
    method CreateNext() returns (item: Option<T>)
      requires Valid() && phase == ItemDue
      modifies this
      ensures Valid() && items == old(items) && currentIndex == old(currentIndex)
      ensures currentIndex < |items| ==>
        phase == ItemRunning && item == Some(items[currentIndex]) && created == old(created) + [items[currentIndex]]
      ensures currentIndex == |items| ==> phase == Done && item == None && created == old(created)
      ensures phase == Done ==> created == items
    {
      if currentIndex >= |items| {
        phase := Done;
        return None;
      }
      item := Some(items[currentIndex]);
      created := created + [items[currentIndex]];
      assert items[..currentIndex + 1] == items[..currentIndex] + [items[currentIndex]];
      phase := ItemRunning;
    }

    /** The current item's completion callback: advance, then either arm the timer for
        the next item or invoke the continuation. */
    method ItemComplete()
      requires Valid() && phase == ItemRunning
      modifies this
      ensures Valid() && items == old(items) && created == old(created)
      ensures currentIndex == old(currentIndex) + 1
      ensures currentIndex < |items| ==> phase == ItemDue
      ensures currentIndex == |items| ==> phase == Done
      ensures phase == Done ==> created == items
    {
      currentIndex := currentIndex + 1;
      if currentIndex < |items| {
        phase := ItemDue;
      } else {
        phase := Done;
      }
    }
  }
}
