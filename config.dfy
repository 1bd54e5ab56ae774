// The game configuration (config/gameConfig.js) as far as the modelled core
// reads it: the sling's geometry and launch constants and two colours.
module GameConfig {
  import opened Physics

  // GAME_CONFIG.sling
  const BasePosition := Vec(300, 450)
  const ProjectileStart := Vec(300, 350)
  const MinPullDistance: real := 20.0
  const ForceMultiplier: real := 0.0007
  const MaxForce: real := 0.3

  // GAME_CONFIG.colors
  const SlingBaseColor := "#8b6113ff"
  const ProjectileColor := "#FF4444"
}
