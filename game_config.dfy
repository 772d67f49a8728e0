/** The tunable constants of the endless jumper (GameConfig.java), as exact reals. */
module GameConfig {
  // World
  const WorldWidth: real := 480.0
  const WorldHeight: real := 800.0

  // Goal of the endless jumper (consumed only by its game loop, which is not modelled)
  const TargetCoins: nat := 15

  // Player physics
  const Gravity: real := -900.0
  const JumpVelocity: real := 550.0
  const MaxHSpeed: real := 220.0

  // Gyroscope gain
  const GyroSensitivity: real := 8.5

  // Endless platforms
  const PlatformWidth: real := 120.0
  const PlatformHeight: real := 18.0
  const PlatformStepY: real := 120.0

  // Probability that a platform carries a coin; the draw itself is supplied from outside
  const CoinSpawnChance: real := 0.40

  // Generation and cleanup windows, in screens
  const PlatformSpawnAheadScreens: real := 1.0
  const CleanupBelowScreens: real := 2.0
}
