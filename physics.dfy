/**
 * The horizontal physics rules of the first prototype iteration, as pure
 * functions over reals: the tuning constants, the symmetric clamp, the rule
 * that turns two held keys into a direction, and the per-frame velocity rule.
 */
module Physics {

  /** A player's horizontal intent; `None` stands for "no direction". */
  datatype Direction = Left | Right | None

  /** Maximum horizontal speed, in world units per frame. */
  const PlayerMaxSpeed: real := 0.4

  /** Horizontal acceleration, in world units per frame per frame. */
  const PlayerAcceleration: real := 0.03

  function Abs(x: real): (r: real)
    ensures 0.0 <= r && (r == x || r == -x)
  {
    if x < 0.0 then -x else x
  }

  /** The sign of a number as -1, 0 or 1, like the host's `Math.sign`. */
  function Sign(x: real): real
  {
    if 0.0 < x then 1.0 else if x < 0.0 then -1.0 else 0.0
  }

  function Min(a: real, b: real): real
  {
    if a <= b then a else b
  }

  function Max(a: real, b: real): real
  {
    if a <= b then b else a
  }

  /**
   * Clamps `value` into `[-limit, limit]`, computed as min(max(-limit, value), limit).
   * The range is meaningful for a non-negative limit; with a negative limit
   * the result is the limit itself.
   */
  function AbsClamp(value: real, limit: real): (r: real)
    ensures 0.0 <= limit ==> -limit <= r <= limit
    ensures 0.0 <= limit && -limit <= value <= limit ==> r == value
    ensures 0.0 <= limit && limit < value ==> r == limit
    ensures 0.0 <= limit && value < -limit ==> r == -limit
    ensures limit < 0.0 ==> r == limit
  {
    Min(Max(-limit, value), limit)
  }

  /**
   * The direction a player wants this frame, from the left and right keys
   * and the direction stored on the player: one key held selects its
   * direction, no key selects None, and both keys keep the stored direction.
   */
  function DesiredDirection(leftKey: bool, rightKey: bool, current: Direction): (d: Direction)
    ensures d == None <==> (!leftKey && !rightKey) || (leftKey && rightKey && current == None)
    ensures d == Right <==> (rightKey && !leftKey) || (leftKey && rightKey && current == Right)
    ensures d == Left <==> (leftKey && !rightKey) || (leftKey && rightKey && current == Left)
    ensures leftKey && rightKey ==> d == current
  {
    if !leftKey && !rightKey then None
    else if !leftKey && rightKey then Right
    else if leftKey && !rightKey then Left
    else current
  }

  /** The stored direction matters only when both keys are held. */
  lemma StoredDirectionOnlyOnConflict(leftKey: bool, rightKey: bool, a: Direction, b: Direction)
    requires !(leftKey && rightKey)
    ensures DesiredDirection(leftKey, rightKey, a) == DesiredDirection(leftKey, rightKey, b)
  {
  }

  /** Holding both keys again leaves the direction where the last frame put it. */
  lemma ConflictIsIdempotent(current: Direction)
    ensures DesiredDirection(true, true, DesiredDirection(true, true, current)) == current
  {
  }

  /**
   * The velocity aimed for before clamping to the maximum speed: one
   * acceleration more when pushing right, one less when pushing left, and
   * with no direction one acceleration nearer to zero, stopping at zero
   * rather than crossing it.
   */
  function DesiredVelocity(direction: Direction, v: real): (r: real)
    ensures direction == Right ==> r - v == PlayerAcceleration
    ensures direction == Left ==> v - r == PlayerAcceleration
    ensures direction == None ==> Abs(r) == Max(0.0, Abs(v) - PlayerAcceleration)
    ensures direction == None && 0.0 <= v ==> 0.0 <= r <= v
    ensures direction == None && v <= 0.0 ==> v <= r <= 0.0
  {
    match direction
    case Left => v - PlayerAcceleration
    case Right => v + PlayerAcceleration
    case None => v - Sign(v) * Min(PlayerAcceleration, Abs(v))
  }

  /** A player's horizontal velocity after one frame in `direction`. */
  function NextVelocity(direction: Direction, v: real): (r: real)
    ensures Abs(r) <= PlayerMaxSpeed
  {
    AbsClamp(DesiredVelocity(direction, v), PlayerMaxSpeed)
  }

  /**
   * Pushing right adds the acceleration up to the maximum speed, so from a
   * speed within bounds the velocity never decreases.
   */
  lemma AccelerateRight(v: real)
    requires Abs(v) <= PlayerMaxSpeed
    ensures NextVelocity(Right, v) == Min(v + PlayerAcceleration, PlayerMaxSpeed)
    ensures v <= NextVelocity(Right, v) <= v + PlayerAcceleration
  {
  }

  /**
   * Pushing left subtracts the acceleration down to minus the maximum speed,
   * so from a speed within bounds the velocity never increases.
   */
  lemma AccelerateLeft(v: real)
    requires Abs(v) <= PlayerMaxSpeed
    ensures NextVelocity(Left, v) == Max(v - PlayerAcceleration, -PlayerMaxSpeed)
    ensures v - PlayerAcceleration <= NextVelocity(Left, v) <= v
  {
  }

  /**
   * Without a direction the velocity decays toward zero and never changes
   * sign; from a speed within bounds it loses exactly the acceleration, or
   * stops at zero when less than that remains.
   */
  lemma DecayTowardZero(v: real)
    ensures 0.0 <= v ==> 0.0 <= NextVelocity(None, v)
    ensures v <= 0.0 ==> NextVelocity(None, v) <= 0.0
    ensures Abs(NextVelocity(None, v)) <= Abs(v)
    ensures Abs(v) <= PlayerMaxSpeed ==>
              Abs(NextVelocity(None, v)) == Max(0.0, Abs(v) - PlayerAcceleration)
  {
  }

  /** The velocity after `n` frames with no direction. */
  function Coast(v: real, n: nat): real
    decreases n
  {
    if n == 0 then v else Coast(NextVelocity(None, v), n - 1)
  }

  /**
   * After `n` frames with no direction the speed is `n` accelerations less,
   * but never below zero, and the sign never flips.
   */
  lemma {:induction false} CoastMagnitude(v: real, n: nat)
    requires Abs(v) <= PlayerMaxSpeed
    ensures Abs(Coast(v, n)) == Max(0.0, Abs(v) - n as real * PlayerAcceleration)
    ensures 0.0 <= v ==> 0.0 <= Coast(v, n)
    ensures v <= 0.0 ==> Coast(v, n) <= 0.0
    decreases n
  {
    if n > 0 {
      var w := NextVelocity(None, v);
      DecayTowardZero(v);
      CoastMagnitude(w, n - 1);
      assert Coast(v, n) == Coast(w, n - 1);
    }
  }

  /**
   * A player coasting from a speed within bounds stands still after `n`
   * frames exactly when `n` accelerations cover its speed, that is within
   * ceil(|v| / acceleration) frames and not earlier.
   */
  lemma CoastStops(v: real, n: nat)
    requires Abs(v) <= PlayerMaxSpeed
    ensures Coast(v, n) == 0.0 <==> Abs(v) <= n as real * PlayerAcceleration
  {
    CoastMagnitude(v, n);
  }
}
