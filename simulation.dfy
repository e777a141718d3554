/**
 * The game as values: a snapshot of both players, the held-key table read
 * once per frame, one frame of the physics step, and a run of frames.
 * The imperative objects in module Game are proved to follow these functions.
 */
module Simulation {
  import opened Physics

  datatype Vec2 = Vec2(x: real, y: real)

  datatype PlayerState = PlayerState(direction: Direction, position: Vec2, velocity: Vec2)

  datatype Snapshot = Snapshot(player1: PlayerState, player2: PlayerState)

  /**
   * Which of the watched keys are held. `w` and `arrowUp` are watched but
   * not read by the step.
   */
  datatype KeyboardState = KeyboardState(
    a: bool, d: bool, w: bool, arrowUp: bool, arrowLeft: bool, arrowRight: bool)

  const NoKeys := KeyboardState(false, false, false, false, false, false)

  /** The two sides of the game, used to state facts once for both players. */
  datatype Side = First | Second

  function PlayerOf(s: Snapshot, side: Side): PlayerState
  {
    match side
    case First => s.player1
    case Second => s.player2
  }

  /** Player 1 steers with `a` / `d`, player 2 with the left / right arrows. */
  function LeftKey(keys: KeyboardState, side: Side): bool
  {
    match side
    case First => keys.a
    case Second => keys.arrowLeft
  }

  function RightKey(keys: KeyboardState, side: Side): bool
  {
    match side
    case First => keys.d
    case Second => keys.arrowRight
  }

  /**
   * Writes the direction the keys resolve to onto the player; position and
   * velocity are untouched, and holding both keys leaves the player as it is.
   */
  function Steer(p: PlayerState, leftKey: bool, rightKey: bool): (q: PlayerState)
    ensures q.position == p.position && q.velocity == p.velocity
    ensures leftKey && rightKey ==> q == p
    ensures !leftKey && !rightKey ==> q.direction == None
    ensures leftKey != rightKey ==> q.direction == (if rightKey then Right else Left)
  {
    p.(direction := DesiredDirection(leftKey, rightKey, p.direction))
  }

  /**
   * One frame of horizontal movement: the new velocity follows the stored
   * direction and stays within the maximum speed, the position advances by
   * exactly the new velocity, and nothing else changes.
   */
  function MoveHorizontally(p: PlayerState): (q: PlayerState)
    ensures Abs(q.velocity.x) <= PlayerMaxSpeed
    ensures q.velocity.x == NextVelocity(p.direction, p.velocity.x)
    ensures q.position.x == p.position.x + q.velocity.x
    ensures q.direction == p.direction
    ensures q.position.y == p.position.y && q.velocity.y == p.velocity.y
  {
    var vx := NextVelocity(p.direction, p.velocity.x);
    p.(velocity := p.velocity.(x := vx), position := p.position.(x := p.position.x + vx))
  }

  /**
   * One frame of the game: each player is steered by its keys, then moved.
   * Afterwards both speeds are within the maximum, each player has advanced
   * horizontally by exactly its new velocity, and nothing vertical changes.
   */
  function Step(s: Snapshot, keys: KeyboardState): (t: Snapshot)
    ensures SpeedBounded(t)
    ensures t.player1.position.x == s.player1.position.x + t.player1.velocity.x
    ensures t.player2.position.x == s.player2.position.x + t.player2.velocity.x
    ensures VerticalUnchanged(s, t)
  {
    Snapshot(MoveHorizontally(Steer(s.player1, keys.a, keys.d)),
             MoveHorizontally(Steer(s.player2, keys.arrowLeft, keys.arrowRight)))
  }

  /** Both players' horizontal speeds are within the maximum. */
  predicate SpeedBounded(s: Snapshot)
  {
    Abs(s.player1.velocity.x) <= PlayerMaxSpeed && Abs(s.player2.velocity.x) <= PlayerMaxSpeed
  }

  /**
   * Both players' vertical coordinates are the same in the two snapshots.
   */
  predicate VerticalUnchanged(s: Snapshot, t: Snapshot)
  {
    t.player1.position.y == s.player1.position.y && t.player1.velocity.y == s.player1.velocity.y &&
    t.player2.position.y == s.player2.position.y && t.player2.velocity.y == s.player2.velocity.y
  }

  /**
   * The state a game starts in: both players at rest on the same height,
   * player 1 to the left of player 2.
   */
  function Initial(): (r: Snapshot)
    ensures AtRest(r) && SpeedBounded(r)
    ensures r.player1.position.y == r.player2.position.y
    ensures r.player1.position.x < r.player2.position.x
  {
    Snapshot(PlayerState(None, Vec2(50.0, 80.0), Vec2(0.0, 0.0)),
             PlayerState(None, Vec2(150.0, 80.0), Vec2(0.0, 0.0)))
  }

  /**
   * The state after the given frames, first frame first. After at least one
   * frame, and in every state reached from a speed-bounded one, both speeds
   * are within the maximum; no run changes anything vertical.
   */
  function Run(s: Snapshot, frames: seq<KeyboardState>): (r: Snapshot)
    ensures frames != [] || SpeedBounded(s) ==> SpeedBounded(r)
    ensures VerticalUnchanged(s, r)
    decreases |frames|
  {
    if frames == [] then s else Run(Step(s, frames[0]), frames[1..])
  }

  /**
   * Each player's new state is its own state steered by its own keys and
   * moved; the step treats both players alike.
   */
  lemma StepBySide(s: Snapshot, keys: KeyboardState, side: Side)
    ensures PlayerOf(Step(s, keys), side)
            == MoveHorizontally(Steer(PlayerOf(s, side), LeftKey(keys, side), RightKey(keys, side)))
    ensures PlayerOf(Step(s, keys), side).direction
            == DesiredDirection(LeftKey(keys, side), RightKey(keys, side), PlayerOf(s, side).direction)
    ensures PlayerOf(Step(s, keys), side).velocity.x
            == NextVelocity(PlayerOf(Step(s, keys), side).direction, PlayerOf(s, side).velocity.x)
  {
  }

  /**
   * A player's next state depends only on its own state and its own two
   * keys: the other player and every other key have no effect on it.
   */
  lemma StepIndependent(s: Snapshot, t: Snapshot, k: KeyboardState, l: KeyboardState, side: Side)
    requires PlayerOf(s, side) == PlayerOf(t, side)
    requires LeftKey(k, side) == LeftKey(l, side) && RightKey(k, side) == RightKey(l, side)
    ensures PlayerOf(Step(s, k), side) == PlayerOf(Step(t, l), side)
  {
  }

  lemma RunAppend(s: Snapshot, frames: seq<KeyboardState>, keys: KeyboardState)
    ensures Run(s, frames + [keys]) == Step(Run(s, frames), keys)
    decreases |frames|
  {
    if frames != [] {
      assert (frames + [keys])[1..] == frames[1..] + [keys];
      RunAppend(Step(s, frames[0]), frames[1..], keys);
    }
  }

  /**
   * While a player holds both of its keys, frame after frame, its direction
   * stays what it was before the first such frame.
   */
  lemma {:induction false} RunConflictKeepsDirection(s: Snapshot, frames: seq<KeyboardState>, side: Side)
    requires forall i :: 0 <= i < |frames| ==> LeftKey(frames[i], side) && RightKey(frames[i], side)
    ensures PlayerOf(Run(s, frames), side).direction == PlayerOf(s, side).direction
    decreases |frames|
  {
    if frames != [] {
      StepBySide(s, frames[0], side);
      RunConflictKeepsDirection(Step(s, frames[0]), frames[1..], side);
    }
  }

  /**
   * While a player holds neither of its keys, its velocity coasts: after
   * `n` such frames it is `Coast(v, n)`.
   */
  lemma {:induction false} RunReleasedCoasts(s: Snapshot, frames: seq<KeyboardState>, side: Side)
    requires forall i :: 0 <= i < |frames| ==> !LeftKey(frames[i], side) && !RightKey(frames[i], side)
    ensures PlayerOf(Run(s, frames), side).velocity.x == Coast(PlayerOf(s, side).velocity.x, |frames|)
    decreases |frames|
  {
    if frames != [] {
      StepBySide(s, frames[0], side);
      RunReleasedCoasts(Step(s, frames[0]), frames[1..], side);
    }
  }

  /**
   * A player within the speed bound that releases its keys stands still
   * exactly once `n` accelerations cover its speed.
   */
  lemma RunReleasedStops(s: Snapshot, frames: seq<KeyboardState>, side: Side)
    requires Abs(PlayerOf(s, side).velocity.x) <= PlayerMaxSpeed
    requires forall i :: 0 <= i < |frames| ==> !LeftKey(frames[i], side) && !RightKey(frames[i], side)
    ensures PlayerOf(Run(s, frames), side).velocity.x == 0.0
            <==> Abs(PlayerOf(s, side).velocity.x) <= |frames| as real * PlayerAcceleration
  {
    RunReleasedCoasts(s, frames, side);
    CoastStops(PlayerOf(s, side).velocity.x, |frames|);
  }

  /** Both players stand still, facing no direction. */
  predicate AtRest(s: Snapshot)
  {
    s.player1.direction == None && s.player1.velocity.x == 0.0 &&
    s.player2.direction == None && s.player2.velocity.x == 0.0
  }

  /** A game at rest stays exactly as it is while no movement key is held. */
  lemma {:induction false} RestIsStable(s: Snapshot, frames: seq<KeyboardState>)
    requires AtRest(s)
    requires forall i :: 0 <= i < |frames| ==>
               !frames[i].a && !frames[i].d && !frames[i].arrowLeft && !frames[i].arrowRight
    ensures Run(s, frames) == s
    decreases |frames|
  {
    if frames != [] {
      assert Step(s, frames[0]) == s;
      RestIsStable(s, frames[1..]);
    }
  }

  /**
   * The game starts with player 1 at (50, 80) and player 2 at (150, 80),
   * both at rest; so it starts within the speed bound and stays put until
   * a movement key is pressed.
   */
  lemma InitialState()
    ensures PlayerOf(Initial(), First).position == Vec2(50.0, 80.0)
    ensures PlayerOf(Initial(), Second).position == Vec2(150.0, 80.0)
    ensures forall side :: PlayerOf(Initial(), side).velocity == Vec2(0.0, 0.0)
    ensures AtRest(Initial()) && SpeedBounded(Initial())
    ensures Step(Initial(), NoKeys) == Initial()
  {
    RestIsStable(Initial(), [NoKeys]);
  }
}
