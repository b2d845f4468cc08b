/** The tuning constants of the plant generator, under the names the script gives them. */
module Config {
  const STEM_HEIGHT: real := 12.0
  const STEM_RADIUS: real := 0.15
  const NUM_BRANCHES: nat := 20
  const NUM_SECONDARY_BRANCHES: nat := 3
  const NUM_TERTIARY_BRANCHES: nat := 2
  const FLOWERS_PER_BRANCH: nat := 4
  const FLOWERS_PER_CLUSTER: nat := 6
  const ANIMATION_SPEED: real := 10.0
  const PARALLEL_BRANCHES: nat := 10
  /** Total duration, in milliseconds, of the staged reveal. */
  const AWESOME_GROWTH_DURATION: real := 2000.0
  /** Particles created by one burst: a literal in the burst routine
      (the declared AWESOME_BURST_PARTICLES, 200, is never read). */
  const BURST_PARTICLE_COUNT: nat := 150
  /** Extra life lost per update, on top of the particle's decay rate. */
  const DECAY_MULTIPLIER: real := 1.5
}
