/**
 * The game's mutable objects and the per-frame operations that update them
 * in place: a point or vector object whose `x` is overwritten, a player that
 * owns one such object for its position and one for its velocity, and the
 * game state that owns both players. Each operation is proved to follow
 * the value model in module Simulation.
 */
module Game {
  import opened Physics
  import opened Simulation

  /** A mutable pair of coordinates. */
  class R2 {
    var x: real
    var y: real

    constructor (x: real, y: real)
      ensures this.x == x && this.y == y
    {
      this.x := x;
      this.y := y;
    }

    ghost function Value(): Vec2
      reads this
    {
      Vec2(x, y)
    }
  }

  class Player {
    var direction: Direction
    var position: R2
    var velocity: R2

    /** Position and velocity are separate objects. */
    ghost predicate Valid()
      reads this
    {
      position != velocity
    }

    ghost function Model(): PlayerState
      reads this, position, velocity
    {
      PlayerState(direction, position.Value(), velocity.Value())
    }

    constructor (direction: Direction, position: R2, velocity: R2)
      requires position != velocity
      ensures Valid()
      ensures this.direction == direction && this.position == position && this.velocity == velocity
    {
      this.direction := direction;
      this.position := position;
      this.velocity := velocity;
    }
  }

  class GameState {
    var player1: Player
    var player2: Player

    /** The two players and their four coordinate objects are all distinct. */
    ghost predicate Valid()
      reads this, player1, player2
    {
      player1 != player2 && player1.Valid() && player2.Valid() &&
      {player1.position, player1.velocity} !! {player2.position, player2.velocity}
    }

    ghost function Model(): Snapshot
      reads this, player1, player2
      reads player1.position, player1.velocity, player2.position, player2.velocity
    {
      Snapshot(player1.Model(), player2.Model())
    }

    constructor (player1: Player, player2: Player)
      requires player1 != player2 && player1.Valid() && player2.Valid()
      requires {player1.position, player1.velocity} !! {player2.position, player2.velocity}
      ensures Valid() && this.player1 == player1 && this.player2 == player2
    {
      this.player1 := player1;
      this.player2 := player2;
    }
  }

  /**
   * Updates a player's horizontal velocity from its stored direction, clamps
   * it to the maximum speed and advances the horizontal position by it.
   * Only `velocity.x` and `position.x` change.
   */
  method HandleHorizontalMovement(player: Player)
    requires player.Valid()
    modifies player.position, player.velocity
    ensures player.Model() == MoveHorizontally(old(player.Model()))
    ensures player.velocity.x == NextVelocity(player.direction, old(player.velocity.x))
    ensures Abs(player.velocity.x) <= PlayerMaxSpeed
    ensures player.position.x == old(player.position.x) + player.velocity.x
    ensures player.position.y == old(player.position.y) && player.velocity.y == old(player.velocity.y)
  {
    var desiredVelocity: real;
    match player.direction {
      case Left =>
        desiredVelocity := player.velocity.x - PlayerAcceleration;
      case Right =>
        desiredVelocity := player.velocity.x + PlayerAcceleration;
      case None =>
        desiredVelocity := player.velocity.x
          - Sign(player.velocity.x) * Min(PlayerAcceleration, Abs(player.velocity.x));
    }
    player.velocity.x := AbsClamp(desiredVelocity, PlayerMaxSpeed);
    player.position.x := player.position.x + player.velocity.x;
  }

  /**
   * One frame for both players: player 1's direction is resolved from `a`
   * and `d` and player 1 moves; then player 2's direction is resolved from
   * the arrow keys and player 2 moves.
   */
  method HandleEvents(state: GameState, keys: KeyboardState)
    requires state.Valid()
    modifies state.player1`direction, state.player1.position, state.player1.velocity
    modifies state.player2`direction, state.player2.position, state.player2.velocity
    ensures state.Valid()
    ensures state.Model() == Step(old(state.Model()), keys)
    ensures state.player1.direction == DesiredDirection(keys.a, keys.d, old(state.player1.direction))
    ensures state.player2.direction
            == DesiredDirection(keys.arrowLeft, keys.arrowRight, old(state.player2.direction))
  {
    state.player1.direction := DesiredDirection(keys.a, keys.d, state.player1.direction);
    HandleHorizontalMovement(state.player1);
    state.player2.direction := DesiredDirection(keys.arrowLeft, keys.arrowRight, state.player2.direction);
    HandleHorizontalMovement(state.player2);
  }

  /** Creates the game's state: both players at their spawn points, at rest. */
  method StartGame() returns (state: GameState)
    ensures fresh(state) && fresh(state.player1) && fresh(state.player2)
    ensures fresh(state.player1.position) && fresh(state.player1.velocity)
    ensures fresh(state.player2.position) && fresh(state.player2.velocity)
    ensures state.Valid()
    ensures state.Model() == Initial()
  {
    var position1 := new R2(50.0, 80.0);
    var velocity1 := new R2(0.0, 0.0);
    var player1 := new Player(None, position1, velocity1);
    var position2 := new R2(150.0, 80.0);
    var velocity2 := new R2(0.0, 0.0);
    var player2 := new Player(None, position2, velocity2);
    state := new GameState(player1, player2);
  }

  /**
   * The animation loop: one step per frame, with the keys held during that
   * frame. Scheduling is left out, so the frames are given as a sequence.
   */
  method GameLoop(state: GameState, frames: seq<KeyboardState>)
    requires state.Valid()
    modifies state.player1`direction, state.player1.position, state.player1.velocity
    modifies state.player2`direction, state.player2.position, state.player2.velocity
    ensures state.Valid()
    ensures state.Model() == Run(old(state.Model()), frames)
  {
    for i := 0 to |frames|
      invariant state.Valid()
      invariant state.player1 == old(state.player1) && state.player2 == old(state.player2)
      invariant state.Model() == Run(old(state.Model()), frames[..i])
    {
      RunAppend(old(state.Model()), frames[..i], frames[i]);
      assert frames[..i + 1] == frames[..i] + [frames[i]];
      HandleEvents(state, frames[i]);
    }
    assert frames[..|frames|] == frames;
  }

  /**
   * A whole session: the game is started and then runs the given frames,
   * touching no object that existed before it.
   */
  method PlayGame(frames: seq<KeyboardState>) returns (state: GameState)
    ensures state.Valid()
    ensures state.Model() == Run(Initial(), frames)
    ensures SpeedBounded(state.Model())
  {
    state := StartGame();
    GameLoop(state, frames);
  }
}
