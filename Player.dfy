/**
 * The per-frame player controller: keyboard direction, friction and force,
 * the accept/reject step against the tile map, the camera that follows the
 * player, and the walk-cycle frame counter that the render step advances.
 *
 * Raylib's input and clock queries become parameters: the state of the four
 * movement keys, the frame time and the current time.
 */
module PlayerController {
  import opened Geometry
  import opened Tiles

  // Constants of the player (all of them fixed in the source).
  const Mass: real := 45.0
  const MoveForce: real := Mass * 5.5
  const Width: real := 16.0
  const Height: real := 32.0
  const CameraOffset: Vec2 := Vec2(16.0, -16.0)
  const FrictionCoefficient: real := 0.01
  /** Below this magnitude a horizontal velocity is snapped to zero. */
  const StopThreshold: real := 0.1
  const AnimationFps: real := 10.0
  /** The number of walk-cycle textures loaded at start. */
  const AnimationFrameCount: int := 4

  /** Which of the four movement keys are held down this frame. */
  datatype Keys = Keys(left: bool, leftAlt: bool, right: bool, rightAlt: bool) {
    predicate LeftHeld() { left || leftAlt }
    predicate RightHeld() { right || rightAlt }
  }

  /**
   * The direction the keys ask for: one step left for the left pair, one
   * step right for the right pair, so holding both pairs cancels out.
   */
  function Direction(keys: Keys): (d: Vec2)
    ensures d.y == 0.0
    ensures d.x == -1.0 || d.x == 0.0 || d.x == 1.0
    ensures d.x == 1.0 <==> keys.RightHeld() && !keys.LeftHeld()
    ensures d.x == -1.0 <==> keys.LeftHeld() && !keys.RightHeld()
  {
    var dx := (if keys.LeftHeld() then -1.0 else 0.0) + (if keys.RightHeld() then 1.0 else 0.0);
    Vec2(dx, 0.0)
  }

  /**
   * The friction step on the horizontal velocity: it is multiplied by the
   * negated coefficient and snapped to zero when what is left is below the
   * threshold. The product flips the sign of every velocity it keeps.
   */
  function Friction(vx: real): (r: real)
    ensures r == 0.0 || Abs(r) >= StopThreshold
    ensures r == 0.0 <==> Abs(vx) < StopThreshold / FrictionCoefficient
    ensures r != 0.0 ==> Abs(r) == Abs(vx) * FrictionCoefficient && (r < 0.0 <==> vx > 0.0)
  {
    var damped := vx * -FrictionCoefficient;
    if Abs(damped) < StopThreshold then 0.0 else damped
  }

  /** The velocity after friction and the keys' force over one frame of `frameTime` seconds. */
  function NextVelocity(v: Vec2, keys: Keys, frameTime: real): (r: Vec2)
    ensures r.x == Friction(v.x) + Direction(keys).x * MoveForce * frameTime
    ensures r.y == v.y
  {
    Vec2(Friction(v.x), v.y).Plus(Direction(keys).Scale(MoveForce).Scale(frameTime))
  }

  /** The vertical velocity is never touched: friction leaves it alone and the keys only push sideways. */
  lemma VerticalVelocityKept(v: Vec2, keys: Keys, frameTime: real)
    ensures NextVelocity(v, keys, frameTime).y == v.y
  {
  }

  /**
   * With no net key input a resting player stays at rest, and a moving one
   * keeps at most a hundredth of its horizontal speed.
   */
  lemma NoInputDecays(v: Vec2, keys: Keys, frameTime: real)
    requires keys.LeftHeld() == keys.RightHeld()
    ensures Abs(NextVelocity(v, keys, frameTime).x) <= Abs(v.x) * FrictionCoefficient
    ensures v.x == 0.0 ==> NextVelocity(v, keys, frameTime).x == 0.0
  {
  }

  /** The player's collision box when standing at `at`. */
  function PlayerBox(at: Vec2): (r: Rect)
    ensures r.x == at.x && r.y == at.y && r.width == 16.0 && r.height == 32.0
  {
    RectAt(at, Width, Height)
  }

  /**
   * The frame after `frame`: one further, back to the first frame once the
   * last of `count` frames is passed.
   */
  function NextFrame(frame: int, count: int): (r: int)
    ensures r == 0 || r == frame + 1
    ensures 0 <= frame < count ==> 0 <= r < count && r == (frame + 1) % count
  {
    var next := frame + 1;
    if next > count - 1 then 0 else next
  }

  /** The frame reached from `frame` after `n` advances. */
  function Advance(frame: int, count: int, n: nat): int
    decreases n
  {
    if n == 0 then frame else Advance(NextFrame(frame, count), count, n - 1)
  }

  /** Advancing `n` times from a frame in range lands `n` frames further on, modulo the frame count. */
  lemma {:induction false} AdvanceIsModular(frame: int, count: int, n: nat)
    requires 0 <= frame < count
    ensures Advance(frame, count, n) == (frame + n) % count
    decreases n
  {
    if n == 0 {
      DivModUnique(frame, count, 0, frame);
    } else {
      var next := NextFrame(frame, count);
      AdvanceIsModular(next, count, n - 1);
      if frame + 1 == count {
        var m: nat := n - 1;
        DivModUnique(m + count, count, m / count + 1, m % count);
      }
    }
  }

  /** After as many advances as there are frames, the walk cycle is back at the frame it started from. */
  lemma WrapLaw(frame: int, count: int)
    requires 0 <= frame < count
    ensures Advance(frame, count, count as nat) == frame
  {
    AdvanceIsModular(frame, count, count as nat);
  }

  /**
   * The animation state after one call at time `now`: the frame advances
   * and the timestamp becomes `now` exactly when at least one frame
   * duration has passed since the last advance.
   */
  function AnimationStep(frame: int, lastAdvance: real, now: real): (r: (int, real))
    ensures now - lastAdvance >= 1.0 / AnimationFps ==> r == (NextFrame(frame, AnimationFrameCount), now)
    ensures now - lastAdvance < 1.0 / AnimationFps ==> r == (frame, lastAdvance)
    ensures 0 <= frame < AnimationFrameCount ==> 0 <= r.0 < AnimationFrameCount
  {
    if now - lastAdvance >= 1.0 / AnimationFps then (NextFrame(frame, AnimationFrameCount), now)
    else (frame, lastAdvance)
  }

  /** The source rectangle of a walk texture: the full sprite, mirrored when walking left. */
  function WalkSource(vx: real): (r: Rect)
    ensures r.x == 0.0 && r.y == 0.0 && r.height == Height
    ensures Abs(r.width) == Width
    ensures r.width < 0.0 <==> vx < 0.0
  {
    var source := Rect(0.0, 0.0, Width, Height);
    if vx < 0.0 then source.(width := -Width) else source
  }

  /** What one render step draws, at the player's position. */
  datatype Sprite =
    | Idle(at: Vec2)
    | Walk(frame: int, source: Rect, at: Vec2)

  /** The single player: its motion, the camera following it and its walk-cycle state. */
  class Player {
    var position: Vec2
    var velocity: Vec2
    var cameraTarget: Vec2
    var animationFrame: int
    var timeSinceLastAnimationFrame: real

    /** The walk-cycle frame always names one of the loaded textures. */
    ghost predicate Valid()
      reads this
    {
      0 <= animationFrame < AnimationFrameCount
    }

    /** Game start: the camera looks at the player and the animation clock starts at `startTime`. */
    constructor Start(startPosition: Vec2, startTime: real)
      ensures Valid()
      ensures position == startPosition && velocity == Zero && cameraTarget == startPosition
      ensures animationFrame == 0 && timeSinceLastAnimationFrame == startTime
    {
      position := startPosition;
      velocity := Zero;
      cameraTarget := startPosition;
      animationFrame := 0;
      timeSinceLastAnimationFrame := startTime;
    }

    /** One frame of game logic: move, then put the camera at the player plus its offset. */
    method Update(keys: Keys, frameTime: real, grid: TileMap)
      requires Valid() && grid.width > 0
      modifies this`position, this`velocity, this`cameraTarget
      ensures Valid()
      ensures velocity == NextVelocity(old(velocity), keys, frameTime)
      ensures position == if Collides(grid, PlayerBox(old(position).Plus(velocity))) then old(position)
                          else old(position).Plus(velocity)
      ensures cameraTarget == position.Plus(CameraOffset)
    {
      Movement(keys, frameTime, grid);
      cameraTarget := position.Plus(CameraOffset);
    }

    /**
     * Read the keys, apply friction and force, and take the step only if
     * the box at the new position hits no collidable tile. The velocity is
     * kept whether or not the step is taken.
     */
    method Movement(keys: Keys, frameTime: real, grid: TileMap)
      requires Valid() && grid.width > 0
      modifies this`position, this`velocity
      ensures Valid()
      ensures velocity == NextVelocity(old(velocity), keys, frameTime)
      ensures position == if Collides(grid, PlayerBox(old(position).Plus(velocity))) then old(position)
                          else old(position).Plus(velocity)
    {
      var direction := Zero;
      if keys.left || keys.leftAlt { direction := direction.(x := direction.x - 1.0); }
      if keys.right || keys.rightAlt { direction := direction.(x := direction.x + 1.0); }
      assert direction == Direction(keys);

      velocity := Vec2(velocity.x * -FrictionCoefficient, velocity.y);
      if Abs(velocity.x) < StopThreshold { velocity := Vec2(0.0, velocity.y); }
      assert velocity == Vec2(Friction(old(velocity).x), old(velocity).y);

      velocity := velocity.Plus(direction.Scale(MoveForce).Scale(frameTime));

      var newPosition := position.Plus(velocity);
      var hit := Collision(newPosition, grid);
      if !hit { position := newPosition; }
    }

    /**
     * Whether the player's box at `newPosition` hits a collidable tile,
     * scanning the tiles in order and stopping at the first hit.
     */
    method Collision(newPosition: Vec2, grid: TileMap) returns (hit: bool)
      requires grid.width > 0
      ensures hit <==> Collides(grid, PlayerBox(newPosition))
    {
      var box := RectAt(newPosition, Width, Height);
      for i := 0 to |grid.tiles|
        invariant forall j: nat :: j < i ==> !Blocks(grid, box, j)
      {
        if !grid.tiles[i].collision { continue; }
        var tileRect := TileRect(grid, i);
        if Overlaps(box, tileRect) {
          assert Blocks(grid, box, i);
          return true;
        }
      }
      return false;
    }

    /**
     * Draw the idle texture when standing still; otherwise advance the walk
     * cycle and draw its current frame, mirrored when walking left.
     */
    method Render(currentTime: real) returns (sprite: Sprite)
      requires Valid()
      modifies this`animationFrame, this`timeSinceLastAnimationFrame
      ensures Valid()
      ensures sprite.Idle? <==> velocity.x == 0.0
      ensures velocity.x == 0.0 ==>
        sprite == Idle(position) &&
        animationFrame == old(animationFrame) && timeSinceLastAnimationFrame == old(timeSinceLastAnimationFrame)
      ensures velocity.x != 0.0 ==>
        (animationFrame, timeSinceLastAnimationFrame)
          == AnimationStep(old(animationFrame), old(timeSinceLastAnimationFrame), currentTime) &&
        sprite == Walk(animationFrame, WalkSource(velocity.x), position)
    {
      if velocity.x == 0.0 {
        sprite := Idle(position);
      } else {
        Animate(currentTime);
        var source := Rect(0.0, 0.0, Width, Height);
        if velocity.x < 0.0 { source := source.(width := -Width); }
        sprite := Walk(animationFrame, source, position);
      }
    }

    /** Advance the walk cycle by one frame if a frame duration has passed since the last advance. */
    method Animate(currentTime: real)
      requires Valid()
      modifies this`animationFrame, this`timeSinceLastAnimationFrame
      ensures Valid()
      ensures (animationFrame, timeSinceLastAnimationFrame)
        == AnimationStep(old(animationFrame), old(timeSinceLastAnimationFrame), currentTime)
    {
      var elapsedTime := currentTime - timeSinceLastAnimationFrame;
      if elapsedTime >= 1.0 / AnimationFps {
        animationFrame := animationFrame + 1;
        if animationFrame > AnimationFrameCount - 1 { animationFrame := 0; }
        timeSinceLastAnimationFrame := currentTime;
      }
    }
  }
}
