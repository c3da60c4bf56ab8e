/** The bird sprite of flappy_bird.py: its rectangle, its vertical velocity,
    the `clicked` latch of the jump button and the flap animation counter.

    The source keeps the velocity as a Python number that starts at 0 and only
    ever gains 0.5, is capped at 8 or is set to -10, so it is always a multiple
    of one half. The model counts it in half pixels per frame. */
module Birds {
  import opened Rects

  /** Gravity per frame, 0.5 px, in half pixels. */
  const Gravity := 1
  /** The fall-speed cap, 8 px per frame, in half pixels. */
  const MaxFall := 16
  /** The jump impulse, -10 px per frame, in half pixels. */
  const JumpVel := -20
  /** The bird only moves while its bottom edge is above this line. */
  const GroundLine := 768
  /** `flap_cooldown`: the animation frame changes once the counter passes it. */
  const FlapCooldown := 5
  /** `len(self.images)`: the three bird images. */
  const FrameCount := 3

  datatype BirdState = BirdState(
    rect: Rect,
    vel: int,         // half pixels per frame, downwards positive
    clicked: bool,    // the button was already down when last looked at
    counter: int,     // frames since the image last changed
    index: int)       // which of the images is shown

  /** The ranges the bird's counters and velocity stay in. */
  predicate Valid(b: BirdState)
  {
    0 <= b.counter <= FlapCooldown && 0 <= b.index < FrameCount &&
    JumpVel <= b.vel <= MaxFall
  }

  /** Python's `int(v)` for v = halves / 2: division truncated toward zero. */
  function Truncate(halves: int): (px: int)
    ensures 0 <= halves ==> 0 <= 2 * px <= halves <= 2 * px + 1
    ensures halves < 0 ==> 2 * px - 1 <= halves <= 2 * px <= 0
  {
    if halves >= 0 then halves / 2 else -((-halves) / 2)
  }

  function Min(a: int, b: int): int { if a <= b then a else b }

  /** `Bird(x, y)`: image rectangle of size w by h centred on (x, y), at rest,
      latch open, first image. */
  function Initial(x: int, y: int, w: nat, h: nat): (b: BirdState)
    ensures b.rect.CenterX() == x && b.rect.CenterY() == y
    ensures b.rect.w == w && b.rect.h == h
    ensures b.vel == 0 && !b.clicked && b.counter == 0 && b.index == 0
    ensures Valid(b)
  {
    BirdState(WithCenter(SizedAt0(w, h), x, y), 0, false, 0, 0)
  }

  /** A jump fires exactly when the game is not over, the button is down and
      the latch was open: only on the rising edge of the button. */
  predicate Jumps(b: BirdState, gameOver: bool, pressed: bool)
  {
    !gameOver && pressed && !b.clicked
  }

  /** `Bird.update()`, given the global flags and the state of the button. */
  function Next(b: BirdState, flying: bool, gameOver: bool, pressed: bool): (r: BirdState)
    // gravity: min(vel + 0.5, 8) while flying, unless a jump replaces it
    ensures Jumps(b, gameOver, pressed) ==> r.vel == JumpVel
    ensures !Jumps(b, gameOver, pressed) ==>
              r.vel == if flying then Min(b.vel + Gravity, MaxFall) else b.vel
    ensures r.vel <= MaxFall || (!flying && r.vel == b.vel)
    ensures JumpVel <= b.vel ==> JumpVel <= r.vel
    // the latch follows the button while the game runs; input is ignored after game over
    ensures !gameOver ==> r.clicked == pressed
    ensures gameOver ==> r.clicked == b.clicked
    // the bird moves vertically by int(vel) only above ground and before game over
    ensures r.rect.y - b.rect.y ==
              if !gameOver && b.rect.Bottom() < GroundLine then Truncate(r.vel) else 0
    ensures r.rect.x == b.rect.x && r.rect.w == b.rect.w && r.rect.h == b.rect.h
    // the animation: counter modulo 6, the image index modulo 3, frozen after game over
    ensures gameOver ==> r.counter == b.counter && r.index == b.index
    ensures Valid(b) && !gameOver ==> (r.index != b.index <==> b.counter == FlapCooldown)
    ensures Valid(b) ==> Valid(r)
  {
    var v := Fall(b.vel, flying);
    if gameOver then
      b.(vel := v)
    else
      var jump := Jumps(b, gameOver, pressed);
      var v' := if jump then JumpVel else v;
      var clicked' := if !pressed then false else if jump then true else b.clicked;
      var y' := if b.rect.Bottom() < GroundLine then b.rect.y + Truncate(v') else b.rect.y;
      BirdState(b.rect.(y := y'), v', clicked', NextCounter(b.counter), NextIndex(b.counter, b.index))
  }

  /** The gravity step of the velocity. */
  function Fall(vel: int, flying: bool): int
  {
    if flying then Min(vel + Gravity, MaxFall) else vel
  }

  /** The animation counter after one running frame. */
  function NextCounter(counter: int): int
  {
    if counter + 1 > FlapCooldown then 0 else counter + 1
  }

  /** The image index after one running frame. */
  function NextIndex(counter: int, index: int): int
  {
    if counter + 1 <= FlapCooldown then index
    else if index + 1 >= FrameCount then 0 else index + 1
  }

  /** Rising edge: a frame that jumps closes the latch, so a following frame
      with the button still held applies gravity instead of a second jump. */
  lemma HeldButtonJumpsOnce(b: BirdState, flying: bool, flying': bool, gameOver': bool)
    requires !b.clicked
    ensures var b1 := Next(b, flying, false, true);
            b1.vel == JumpVel && b1.clicked &&
            !Jumps(b1, gameOver', true) &&
            Next(b1, flying', gameOver', true).vel ==
              (if flying' then Min(JumpVel + Gravity, MaxFall) else JumpVel)
  {
  }

  /** While the game runs the counter counts frames modulo 6 and the image
      index steps modulo 3, once per wrap of the counter. */
  lemma AnimationCycles(b: BirdState, flying: bool, pressed: bool)
    requires Valid(b)
    ensures var r := Next(b, flying, false, pressed);
            r.counter == (b.counter + 1) % (FlapCooldown + 1) &&
            r.index == if b.counter == FlapCooldown then (b.index + 1) % FrameCount else b.index
  {
  }

  /** The bird object, whose fields `Bird.update` changes in place. */
  class Bird {
    var rect: Rect
    var vel: int
    var clicked: bool
    var counter: int
    var index: int

    function State(): BirdState
      reads this
    {
      BirdState(rect, vel, clicked, counter, index)
    }

    constructor (x: int, y: int, w: nat, h: nat)
      ensures State() == Initial(x, y, w, h)
    {
      index := 0;
      counter := 0;
      rect := WithCenter(SizedAt0(w, h), x, y);
      vel := 0;
      clicked := false;
    }

    method Update(flying: bool, gameOver: bool, pressed: bool)
      modifies this
      ensures State() == Next(old(State()), flying, gameOver, pressed)
    {
      ghost var b := State();
      if flying {
        vel := vel + Gravity;
        if vel > MaxFall {
          vel := MaxFall;
        }
      }
      assert vel == Fall(b.vel, flying);
      if !gameOver {
        if pressed && !clicked {
          clicked := true;
          vel := JumpVel;
        }
        if !pressed {
          clicked := false;
        }
        if rect.Bottom() < GroundLine {
          rect := rect.(y := rect.y + Truncate(vel));
        }
        counter := counter + 1;
        if counter > FlapCooldown {
          counter := 0;
          index := index + 1;
          if index >= FrameCount {
            index := 0;
          }
        }
        assert counter == NextCounter(b.counter) && index == NextIndex(b.counter, b.index);
      }
    }
  }
}
