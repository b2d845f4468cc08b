# Flower generator core in Dafny

This project models the logic of a three.js plant generator (`script.js`). The generator does the following:

- It grows a stem with 20 primary branches placed at golden-angle intervals.
- Each primary branch carries 3 secondary branches, and each secondary carries 2 tertiary branches.
- Flower clusters sit along the branches and at their tips.
- The branches are created in waves of `PARALLEL_BRANCHES`.
- Each element grows with its own progress clock, and children start only when their parent is fully grown.
- The configured build uses the "awesome" path:
  - it fires a particle burst;
  - it builds the whole plant at once, with every mesh hidden;
  - it then reveals the plant level by level: stem, primary, secondary, tertiary, cluster, flower.

Every `Math.random()` draw becomes an explicit input constrained to its half-open range. Every clock reading becomes an `elapsed` input. Every `setTimeout` or `requestAnimationFrame` callback becomes an explicit state transition.

One module per piece:

- `Config` holds the constants, with the values the script declares.
- `Vectors` holds 3-vectors.
- `Sorting` holds the key-comparator sort.
- `Growth` holds the per-element progress closures.
- `Branches` holds branch length, tube radius and the control-point loop shared by the primary, secondary and tertiary builders.
- `Topology` holds the primary plan (`prepareBranchPositions`) and the attachment loops for child branches and flower clusters.
- `Scheduler` holds:
  - the wave-front batching of `generateBranchesSequentially`;
  - the completion counters that gate children;
  - the one-at-a-time cursor used for clusters and flowers.
- `Staged` holds the per-level clamp of the staged reveal.
- `ModelBuild` holds `generateCompleteFlowerModel` and its `create*Model` builders, which append to `allMeshes`, and the reveal frame.
- `Particles` holds the burst, `updateParticles` and the burst cleanup.

The script keeps three near-identical copies of each builder: the fast one, the animated one and the `*Model` one. Their shared formulas (lengths, bends, attachment parameters, child scales) are defined once, per tier.

## Model

| member | source | states |
|---|---|---|
| Growth.Progress | script.js:815-817 | `min(elapsed/duration, 1)` is at most 1, is non-negative for a non-negative elapsed time, and equals 1 exactly when elapsed ≥ duration |
| Growth.ProgressMonotone | script.js:815-817 | progress never decreases as the elapsed time grows |
| Growth.GrowthStep | script.js:815-828 | one growth frame hands over to the children exactly when elapsed ≥ duration; it then shows the full base scale, and before that a scale in [0, base] |
| Growth.FlowerScale | script.js:1242 | a flower's scale jitter `0.8 + r·0.4` lies in [0.8, 1.2) for r in [0, 1) |
| Growth.RunGrowth | script.js:1251-1262 | frame i shows exactly `baseScale·min(elapsed_i/duration, 1)`; with non-decreasing clocks and a non-negative base the scales stay in [0, base] and never decrease; frames stop at the first one with elapsed ≥ duration, which is the only hand-over and shows the full base scale |
| Branches.BranchLength | script.js:766 | branch length lies in [2s, 3s), [0.8s, 1.4s) or [0.6s, 1.0s) for the primary, secondary or tertiary tier at scale s |
| Branches.TubeRadius | script.js:787-793 | the tube radius is positive and at most `STEM_RADIUS·0.4·s` for every tier |
| Branches.BendFactor | script.js:773-774 | each per-axis bend weight lies in [0, the tier's bound), the bound being 0.4, 0.15·s or 0.1·s |
| Branches.SharedFactor | script.js:905 | the shared bend factor `r·c·s` of the secondary and tertiary builders lies in [0, c·s) |
| Branches.BendOf | script.js:773-774 | a control point's bend is `sin(tπ)` times the x weight and `cos(tπ)` times the z weight, and both offsets lie strictly within the tier's bound on either side |
| Branches.ControlPoints | script.js:770-784 | the loop yields `segments+1` points; point 0 is the start; point i is the straight point at `t = i/segments` plus a bend on x and z only, so y is exactly `start.y + dir.y·t·length` |
| Branches.ControlPointsRise | script.js:776-781 | for an upward direction and a positive length, the control points rise strictly from each one to the next |
| Branches.TipDisplacement | script.js:776-781 | the last control point has y equal to `start.y + dir.y·length`, and x and z within the tier's bend bound of the straight tip |
| Topology.AttachTInWindow | script.js:851 | child attachment parameters increase strictly inside their window ([0.3, 0.8) for secondaries, [0.4, 0.8) for tertiaries), which ends at or below 1 |
| Topology.PrimaryScaleTapers | script.js:754 | primary scale `1 − 0.3·i/N` is 1 for the first branch, lies in (0.7, 1] and never increases with i |
| Topology.GoldenAnglesDistinct | script.js:728 | no two of the 20 golden-angle placements `137.5·i` degrees differ by a whole number of turns |
| Topology.PlannedBranch | script.js:726-757 | primary i sits at a height fraction in [0.3, 1), with a scale in (0.7, 1] and the angle `137.5·i` degrees; its point is the stem's sample at that height pushed out by 0.8 of the stem radius, and its tangent is the stem's tangent there |
| Topology.PrepareBranchPositions | script.js:716-763 | no stem or no stem curve gives an empty plan; otherwise there are exactly `NUM_BRANCHES` entries, entry i is the planned branch i, heights increase strictly inside [0.3, 1), scales lie in (0.7, 1] and never increase, and the height sort keeps this order |
| Topology.PlanOrdered | script.js:724-760 | the planned primaries are already sorted by height, with heights and scales in range, so the sort at line 760 is the identity |
| Sorting.SortBySortedIsIdentity | script.js:760 | sorting a list already in key order returns it unchanged |
| Topology.PlanChildBranches | script.js:839-879 | a parent without a curve gets no children; otherwise it gets `Count(tier)` children (3 secondaries or 2 tertiaries), child i is the planned child at `t_i`; every child lies inside the tier's window with scale `parent·0.4` or `parent·0.6` (stored scale, 1 if none), and the `t` values increase strictly |
| Topology.PlannedChild | script.js:851-878 | child i lies inside its tier's window with scale `parent·0.4` or `parent·0.6`; its point is the parent's sample at its `t` pushed along the rotated perpendicular by 0.9 of the parent radius, and it keeps the drawn angle and direction |
| Topology.ChildrenInWindow | script.js:850-878 | the candidate children all lie in their tier's window with the derived child scale, in strictly increasing `t` |
| Topology.ClusterTInWindow | script.js:1110 | the side clusters' parameters `0.4 + 0.6·i/F` increase strictly inside [0.4, 1) |
| Topology.PlannedCluster | script.js:1109-1130 | cluster i lies at `t` in [0.4, 1], with `t = 1` exactly for the tip; side clusters take 0.8 of the branch scale and the tip the full scale; each sits at the branch's sample at its `t`, facing the tangent there |
| Topology.PlanClusters | script.js:1099-1132 | a branch without a curve gets no clusters; otherwise it gets `F+1` clusters, the planned ones in order, with `t` increasing strictly inside [0.4, 1]; the last is the tip at `t = 1` with the branch's full scale |
| Topology.ClustersOrdered | script.js:1108-1132 | the planned clusters are already sorted by `t` within [0.4, 1], so the sort at line 1132 changes nothing |
| Scheduler.Slice | script.js:684 | `slice(lo, hi)` has `min(hi, length) − lo` elements (none once `lo` is past the end), element k is the list's element `lo + k`, and within bounds the slice followed by the rest from `hi` is the suffix from `lo` |
| Scheduler.SplitIntoGroups | script.js:682-685 | the slicing loop yields exactly the chunking of the plan |
| Scheduler.FlattenChunks | script.js:682-685 | the batches, concatenated in order, give back the plan |
| Scheduler.ChunksShape | script.js:682-685 | every batch is non-empty and holds at most `width` items; all but the last are full |
| Scheduler.ChunksCount | script.js:682-685 | there are `ceil(length / width)` batches |
| Scheduler.ConfiguredWaves | script.js:683-684 | the configured 20 primaries make 2 full waves of 10 |
| Scheduler.ConfiguredWavesIfPlanned | script.js:678-685 | a full plan makes two waves, and an empty plan makes none |
| Scheduler.WaveScheduler.constructor | script.js:678-686 | the scheduler starts at wave 0 with no branches generated; an empty plan goes straight to the finishing timeout |
| Scheduler.WaveScheduler.GenerateNextGroup | script.js:687-711 | with waves left, the current wave's branches are started and the counter is reset; past the last wave, the finishing timeout is scheduled |
| Scheduler.WaveScheduler.BranchComplete | script.js:701-708 | each completion adds one to `branchesGenerated`; the next wave is scheduled only when the wave's counter reaches its size, and otherwise the wave keeps running |
| Scheduler.WaveScheduler.FinishTimeout | script.js:688-694 | generation ends with `isGenerating` false and `generationComplete` true, and every planned branch has been generated |
| Scheduler.CompletionGate.constructor | script.js:881-894 | the gate counts `children` completions; a parent without children continues at once |
| Scheduler.CompletionGate.ChildComplete | script.js:886-894 | each child completion adds one to the count; the parent's continuation fires exactly when the count reaches the number of children, and only then |
| Scheduler.SequentialCursor.CreateNext | script.js:1136-1144 | with items left, the current item is created next, in list order; past the end, the cursor completes without creating anything, and every item has then been created once, in order |
| Scheduler.SequentialCursor.ItemComplete | script.js:1145-1151 | a finished item advances the cursor by one; the cursor is done exactly when it passes the last item, and then every item has been created once, in order |
| Staged.LevelProgress | script.js:1760-1764 | `clamp((p − 0.15·L)/0.3, 0, 1)` lies in [0, 1], is positive exactly when p > 0.15·L, and is 1 exactly when p ≥ 0.15·L + 0.3 |
| Staged.LevelProgressMonotone | script.js:1760-1764 | a level's progress never decreases as global progress grows |
| Staged.DeeperLevelsLag | script.js:1760-1764 | a deeper level is never further along than a shallower one |
| Staged.LevelsOverlap | script.js:1760-1764 | each level is halfway done when the next one starts |
| Staged.FinalProgress | script.js:1756-1764 | at p = 1, levels 0–4 are complete, but level 5 (flowers) stops at 5/6 because its window ends at 1.05 |
| Staged.FlowersNeverFull | script.js:1756-1764 | no progress up to 1 brings a flower to full scale |
| Staged.RevealMesh | script.js:1766-1778 | a mesh is visible exactly when its level has started, and is then scaled by its level progress, within (0, 1]; a hidden mesh keeps its scale; the kind never changes |
| Staged.Reveal | script.js:1758-1779 | one frame applies the per-mesh rule to every mesh, and keeps the count and order |
| Staged.RevealIdempotent | script.js:1758-1779 | re-running a frame at the same progress changes nothing |
| Staged.RevealMonotone | script.js:1758-1779 | once shown, a mesh stays shown and never shrinks as progress advances |
| Staged.FirstFrameHidesAll | script.js:1758-1779 | at progress 0 every mesh is hidden, the stem included |
| Staged.LastFrameShowsAll | script.js:1758-1779 | at progress 1 every mesh is shown; non-flowers are at scale 1 and flowers at 5/6 |
| ModelBuild.FlowerCount | script.js:1704 | a cluster built by the model holds between `FLOWERS_PER_CLUSTER` and `FLOWERS_PER_CLUSTER + 3` flowers |
| ModelBuild.FlowerModel.Push | script.js:1447-1450 | adding one mesh appends exactly one fresh, visible mesh of that kind and scale to `allMeshes`, and changes nothing else |
| ModelBuild.FlowerModel.CreateStemModel | script.js:1418-1452 | the stem appends one level-0 mesh at scale 1 |
| ModelBuild.FlowerModel.CreateFlowerClusterModel | script.js:1690-1719 | a cluster appends its level-4 centre and then its 6–9 level-5 flowers, each with its jittered scale |
| ModelBuild.FlowerModel.CreateTertiaryBranchModel | script.js:1622-1671 | a tertiary appends its level-3 branch, then its tip cluster |
| ModelBuild.FlowerModel.CreateTertiaryBranchesModel | script.js:1590-1620 | the tertiaries are appended in attachment order |
| ModelBuild.FlowerModel.CreateSecondaryBranchModel | script.js:1536-1588 | a secondary appends its level-2 branch, then its tip cluster, then its tertiaries |
| ModelBuild.FlowerModel.CreateSecondaryBranchesModel | script.js:1504-1534 | the three secondaries are appended in attachment order |
| ModelBuild.FlowerModel.CreateFlowersOnBranchModel | script.js:1672-1688 | a primary's `F+1` clusters are appended in order |
| ModelBuild.FlowerModel.CreateBranchModel | script.js:1453-1502 | a primary appends its level-1 branch, then its secondaries, then its clusters |
| ModelBuild.FlowerModel.CreateBranchModels | script.js:1408-1411 | the primaries are appended in plan order |
| ModelBuild.FlowerModel.GenerateCompleteFlowerModel | script.js:1405-1416 | starting from an empty list, the build yields exactly the stem followed by every primary's subtree, all hidden |
| ModelBuild.FlowerModel.HideAll | script.js:1413-1415 | every mesh is hidden, and nothing else changes |
| ModelBuild.FlowerModel.RevealFrame | script.js:1754-1787 | a reveal frame applies `Staged.Reveal` at `min(elapsed/2000, 1)` to every mesh; it asks for another frame exactly while elapsed < 2000, and otherwise it ends generation |
| ModelBuild.ClusterTally | script.js:1690-1719 | a cluster contributes one cluster and 6–9 flowers |
| ModelBuild.SecondaryTally | script.js:1536-1588 | a secondary contributes 1 secondary, 2 tertiaries and 3 clusters |
| ModelBuild.PrimaryTally | script.js:1453-1502 | a primary contributes 1 primary, 3 secondaries, 6 tertiaries and 14 clusters |
| ModelBuild.PrimariesTally | script.js:1409-1411 | n primaries contribute n times a primary's tally |
| ModelBuild.ModelTally | script.js:1405-1416 | the whole model holds 1 stem, 20 primaries, 60 secondaries, 120 tertiaries, 280 clusters and between 1680 and 2520 flowers |
| ModelBuild.Hidden | script.js:1413-1415 | hiding keeps every mesh, in order, with its kind and scale, and only clears `visible` |
| ModelBuild.HiddenTally | script.js:1413-1415 | hiding every mesh changes no kind |
| Particles.UpdatedMembers | script.js:1846-1871 | a particle survives an update exactly when it is some old particle advanced one step with life > 0 |
| Particles.Advance | script.js:1848-1859 | one step moves a particle by `direction·speed`, takes exactly `1.5·decay` off its life, sets opacity and scale to the new life, and keeps direction, speed and decay |
| Particles.Updated | script.js:1846-1871 | the reference update of the whole list never grows it, and every particle it keeps has positive life |
| Particles.UpdatedAppend | script.js:1847-1870 | updating a list updates each part independently, so survivors keep their relative order |
| Particles.AgedLife | script.js:1854 | after k steps, life has dropped by exactly `1.5·decay·k` |
| Particles.AgedPosition | script.js:1850-1852 | after k steps, the position has moved by `direction·speed·k` |
| Particles.RunSingle | script.js:1846-1871 | a lone particle is still present after k updates exactly when its aged life is positive |
| Particles.DecayExample | script.js:1854 | a particle with life 1 and decay 0.2 survives 3 updates and is gone after the 4th |
| Particles.BurstParticle | script.js:1335-1382 | a burst particle starts at life 1, opacity 0.8 and scale 1, with decay in [0.12, 0.2), speed in [0.1, 0.25) and an offset within ±0.025 per axis |
| Particles.BurstLifetime | script.js:1380-1381 | every burst particle survives 3 updates and is gone after 6 |
| Particles.ParticleSystem.CreateBurst | script.js:1335-1385 | the burst appends exactly 150 particles, keeps the earlier ones and counts them all |
| Particles.ParticleSystem.UpdateParticles | script.js:1846-1871 | the reverse in-place loop with `splice` leaves exactly the advanced survivors of the old list, in their old order |
| Particles.ParticleSystem.BurstTimeout | script.js:1387-1402 | the burst timeout empties the particle list and leaves the running count as it was |

## Left out

- Curve sampling (`getPointAt`/`getTangentAt` of the Catmull-Rom curves) is an opaque `Sampler` given as input. `TubeGeometry`, `SphereGeometry` and stem geometry are not modelled.
- `normalize`, `crossVectors`, quaternion rotations, `sin`/`cos`/`acos` and `localToWorld` are foreign or transcendental. Their results are inputs. Examples are the branch directions, the per-axis bend weights `sin(tπ)` and `cos(tπ)`, and the burst directions.
- Cluster orientation (script.js:1169-1171, 1695-1697) is not modelled. It normalises a cross product that is zero when the tangent is parallel to up.
- Scene, camera, lights, renderer, controls, post-processing, shaders, starry background, DOM loading and resize, colours, materials and resource disposal are rendering and I/O.
- Timers (`setTimeout`, `requestAnimationFrame`, `Date.now()`) are not modelled as time. Each callback is an explicit method, and each clock reading is an `elapsed` input. The delays themselves (100 ms, 500 ms, 300 ms, 3000 ms) are not modelled.
- The fast builders (script.js:380-676) share their formulas with the modelled tiers. Their own wiring is not modelled.
- The non-animated branches of `createNextCluster` and `createNextFlower` (script.js:1153-1157, 1209-1214) are not modelled. They are only reached with `animate` false, which the animated path never passes.
- `ModelBuild.FlowerModel.CreateFlowerClusterModel`: a mesh is reduced to its kind, visibility and scale, so positions, orientation and `userData.curve` are not modelled. The size a builder passes to a cluster (0.8 of a secondary's scale, 0.7 of a tertiary's) only spreads the flowers' positions and sizes, so it is not modelled either.
- The animated `createFlowerCluster` draws `floor(r·5) + 6` flowers (script.js:1175), not the model builder's `floor(r·4) + 6`. Only the builder's count is modelled.
- `addGrowthParticleAt` (script.js:1791-1844) is not modelled. It is never called from the render loop, and its colour lerp is rendering.
- `Particles.ParticleSystem.UpdateParticles` models particles as values. The mesh's opacity and scale become fields that track life, and the `deltaTime` argument is ignored, as in the source. The function is never called from the render loop in the configured build.
- `Growth.FlowerScale` states its range only when the draw lies in [0, 1), as an implication, so the function stays total.
- `Growth.RunGrowth` uses the generic progress closure with a base scale: 1 for the stem and the branches, the jitter for a flower. It stands for the stem, branch, secondary, tertiary and flower animations; the stem's closure scales only y, which the model does not distinguish. Their durations (600 ms and 400, 300, 200, 100 ms divided by `ANIMATION_SPEED`) are in `Growth` as constants.
- Which path `startGeneration` takes (script.js:272-285) is not modelled. With the configured flags, only the burst, the complete model and the staged reveal run. The sequential wave scheduler is modelled as a standalone operation.
