/** The tuning constants of the global game configuration (`GAME_CONFIG`). */
module GameConfig {

  /** Launch power: starts at `PowerMin`, grows by `ChargeRate` per unit of frame time, capped at `PowerMax`. */
  const PowerMin: real := 0.0
  const PowerMax: real := 100.0
  const ChargeRate: real := 2.0

  /** Launch angle in degrees, adjusted by `AngleStep` per key press within [AngleMin, AngleMax]. */
  const AngleMin: int := 0
  const AngleMax: int := 90
  const AngleStep: int := 1
}
