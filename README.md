# Flappy Bird game step, modelled in Dafny

This project models the per-frame game logic of `flappy_bird.py`, a small
pygame arcade game. The bird falls under gravity and jumps on a click. Pairs of
pipes scroll in from the right. The score rises when the bird passes a pair.
Touching a pipe, the ceiling or the ground ends the game, and a restart button
resets it.

The state is plain integers and booleans: rectangle coordinates, the score, the
ground offset, the spawn clock, the bird's animation counters, and the
`flying`, `game_over`, `pass_pipe` and `clicked` flags. The bird's velocity is
a Python number that only ever gains 0.5, is capped at 8 or is set to -10, so
it is always a multiple of one half. The model stores it exactly, as a whole
number of half pixels per frame (`Birds.JumpVel == -20`, `Birds.MaxFall == 16`).
Then `int(vel)` is `Birds.Truncate`, a division by two that rounds toward zero.

Modules, in dependency order:

- `Rects` (`rects.dfy`): pygame's `Rect` restricted to non-negative sizes. It
  has the edge getters, the `center`, `bottomleft` and `topleft` setters, the
  overlap test and the point test.
- `Birds` (`birds.dfy`): the bird as a value, `BirdState`. `Next` is the value
  form of `Bird.update`. The class `Bird` holds the same fields and changes
  them in place; its `Update` is proved equal to `Next`.
- `Pipes` (`pipes.dfy`): a pipe record, its construction around a centre
  line, and the group update (move left by 4, remove pipes whose right edge
  is negative). `UpdateGroup` is that update written as a loop. The module
  also holds the invariant the group keeps: it is a sequence of
  (bottom, top) pairs with a 150 px gap, ordered from the left.
- `Game` (`game.dfy`): the frame as one pure function, `Frame`. It is built
  from one function per phase of the `while run` loop, in the source's order:
  bird, score, collision, spawn/ground/pipe scroll, restart, events. The
  class `GameState` holds the module-level variables, the bird object and
  the pipe group. Its `Step` runs the phases imperatively and is proved to
  produce `Frame` of the old state.

Everything outside the game comes in as an `Input` per frame: the left mouse
button, the pointer position, the queued events, `pygame.time.get_ticks()` and
the value of `random.randint(-100, 100)`. The image sizes of the bird, pipe and
button images set the rectangles' sizes. They are not in the source text, so
they are parameters (`Game.Assets`).

Details of the code that the model keeps as written:

- The bird moves by `int(vel)`, which rounds toward zero, so a velocity of
  -9.5 moves it 9 px up, not 10.
- A restart does not clear `flying`, `pass_pipe` or the velocity. After a pipe
  collision `flying` stays true, so the game runs again at once after the
  restart.
- The bird starts centred on (100, 468) (`rect.center`). A reset puts its top
  left corner at (100, 468).
- The score is checked against the first sprite of the group. Because the
  bottom pipe is added first, that is the bottom pipe of the oldest pair still
  alive. `Pipes.FirstPipeIsLeftmostBottom` proves it is also the leftmost pipe.
- The bird moves only while its bottom edge is above 768 (`<`). The ground check
  ends the game only once that edge is below 768 (`>`). A bird whose bottom edge is exactly
  on 768 therefore stays still and the game goes on, until a pipe reaches it
  (`Game.RestsOnGroundLine`).

Assumptions about pygame:

- Rectangle overlap follows pygame 2's `colliderect`: strict inequalities on
  both axes, and a rectangle of zero size overlaps nothing.
- `collidepoint` is half-open: `x <= px < x + w`.
- `groupcollide` with one bird is "some pipe overlaps the bird".
- A sprite group keeps insertion order, and `Group.update` updates its sprites
  in that order.

## Model

| member | source | states |
|---|---|---|
| Rects.SizedAt0 | flappy_bird.py:77 | `get_rect()` is a rectangle of the image's size with its top left corner at the origin |
| Rects.WithCenter | flappy_bird.py:78 | setting the centre keeps the size, and reading the centre back gives the point that was set |
| Rects.WithBottomLeft | flappy_bird.py:133 | setting `bottomleft` keeps the size and puts the left and bottom edges where asked |
| Rects.WithTopLeft | flappy_bird.py:135 | setting `topleft` keeps the size and puts the left and top edges where asked |
| Birds.Truncate | flappy_bird.py:101 | `int(vel)` for a velocity in half pixels: the result has the sign of the input and loses less than one whole pixel toward zero |
| Birds.Initial | flappy_bird.py:62-82 | a new bird is centred on the given point, at rest, latch open, first image, with its counters in range |
| Birds.Next | flappy_bird.py:84-113 | a rising-edge press before game over sets the velocity to -10; otherwise gravity gives min(vel + 0.5, 8) while flying; the velocity never drops below -10; the latch equals the button before game over and is kept after; y changes by exactly `int(vel)` only before game over and above the ground line; x and size never change; the animation freezes after game over; the image index changes exactly on the frame the counter wraps; the counter and index ranges are kept |
| Birds.HeldButtonJumpsOnce | flappy_bird.py:92-98 | after a jump, a frame with the button still held applies gravity instead of a second jump |
| Birds.AnimationCycles | flappy_bird.py:103-111 | while running, the counter counts frames modulo 6 and the index steps modulo 3 once per wrap |
| Birds.Bird.constructor | flappy_bird.py:62-82 | the new bird object has the state `Initial` describes |
| Birds.Bird.Update | flappy_bird.py:84-113 | the in-place update leaves the bird in the state `Next` gives for the old state |
| Pipes.New | flappy_bird.py:124-135 | a top pipe's bottom edge is half a gap (75) above the centre line, a bottom pipe's top edge half a gap below it, both at column x; any other position leaves the rectangle at the origin |
| Pipes.Update | flappy_bird.py:137-140 | `pipe_group.update()` moves every pipe left by 4 in group order and kills those whose right edge is then negative: the group never grows and every pipe left in it is on screen |
| Pipes.UpdateMembers | flappy_bird.py:137-140 | after the group update each pipe is present, moved left by exactly 4, if and only if its right edge is then not negative; nothing else is present, and the group does not grow |
| Pipes.UpdateGroup | flappy_bird.py:238 | the loop over the group's sprites leaves exactly the group update's result |
| Pipes.AddPair | flappy_bird.py:226-230 | the spawner appends exactly two pipes: first the bottom one, its top edge half a gap below the centre line, then the top one, its bottom edge half a gap above it; both at the same column, and they form a pair |
| Pipes.UpdateKeepsPairs | flappy_bird.py:137-140 | the group update keeps the group a sequence of (bottom, top) pairs in the same column with a 150 px gap: both pipes of a pair move together and leave together |
| Pipes.UpdateKeepsOrder | flappy_bird.py:137-140 | the group update keeps the group ordered from left to right |
| Pipes.UpdateKeepsLeftOf | flappy_bird.py:138 | after the update every pipe is at least 4 px further left than the bound it was within |
| Pipes.AddPairKeepsInvariants | flappy_bird.py:227-230 | a pair appended right of every pipe keeps the group paired and ordered |
| Pipes.ScrollKeepsInvariants | flappy_bird.py:225-238 | one scroll frame, with or without a spawn at column 864, keeps the group paired, ordered and at or left of column 860 |
| Pipes.FirstPipeIsLeftmostBottom | flappy_bird.py:198-203 | in a paired, ordered group, the pipe the score is checked against is a bottom pipe and no pipe is left of it |
| Game.Start | flappy_bird.py:27-36 | the state before the first frame: the bird is the new bird of `Birds.Initial`, centred on (100, 468), at rest, latch open, first image; no pipes, score 0, not flying, not over, ground offset 0, spawn clock at the start time; it satisfies the invariant |
| Game.ScorePhase | flappy_bird.py:197-205 | the score rises by at most one, and it rises exactly when the latch was already armed and the bird's left edge is past the first pipe's right edge; scoring disarms the latch; while the bird is not past the first pipe, the latch is armed afterwards exactly when it was armed before or the bird is strictly inside that pipe's columns, so it is armed on entering and stays armed until the bird is past; without pipes nothing changes |
| Game.HitsPipe | flappy_bird.py:210 | `groupcollide` for the one bird holds exactly when some pipe of the group overlaps it; an empty group or a zero-size bird is never hit |
| Game.CollisionPhase | flappy_bird.py:210-216 | the game is over after this check exactly when it already was, or the bird overlaps a pipe, or its top is above 0, or its bottom is below 768; the flight goes on exactly when it was on and the bottom is not below 768 |
| Game.SpawnPhase | flappy_bird.py:224-231 | when more than 1500 ms have passed since the last pair, exactly two pipes are appended at x=864: a bottom pipe with its top at 468 + offset + 75, then a top pipe with its bottom at 468 + offset - 75, so the gap is 150, and the two form a pair of the pipe image's size; the spawn clock becomes the current time; otherwise nothing changes |
| Game.ScrollGround | flappy_bird.py:233-236 | the ground offset moves left by 4, and wraps to 0 only when the moved offset would be more than 35 px from 0; it stays within 35 px of 0 and stays one of 0, -4, ..., -32 |
| Game.ScrollPhase | flappy_bird.py:221-238 | while flying and not over, the spawn clock is whatever the spawner left, the ground scrolls, and every pipe, including a newly spawned pair, is moved left by exactly 4 or removed once its right edge is negative, with nothing else in the group; otherwise pipes, ground and spawn clock stand still |
| Game.ButtonRect | flappy_bird.py:177 | the button is the image's rectangle with its top left corner at (864 // 2 - 50, 936 // 2 - 100) = (382, 368) |
| Game.ButtonAction | flappy_bird.py:149-159 | `Button.draw()` returns true exactly when the left button is down and the pointer is in the half-open box from (382, 368) of the button image's size |
| Game.Restart | flappy_bird.py:50-56 | a restart leaves the game running, the group empty, score 0 and the bird's top left corner at (100, 468); flying, velocity, latches, animation, ground and clock are kept |
| Game.RestartIdempotent | flappy_bird.py:50-56 | restarting twice gives the same state as restarting once |
| Game.RestartPhase | flappy_bird.py:242-245 | the restart happens if and only if the game is over and the pointer is pressed inside the button; otherwise nothing changes |
| Game.EventPhase | flappy_bird.py:250-255 | after the events the game is flying exactly when it already was, or it is not over and some event is a mouse-down; nothing else changes |
| Game.ProcessEvents | flappy_bird.py:250-255 | after the event loop the game is flying exactly when it already was, or the game is not over and some event was a mouse-down |
| Game.Frame | flappy_bird.py:181-258 | per frame the score stays, rises by one or becomes 0; from a non-negative score a point is scored only when the latch was armed before the frame, and scoring leaves it disarmed; it falls only through a restart, which needs a press inside the button and leaves the group empty with the bird at (100, 468); game over ends only through such a restart; pipes, ground and spawn clock stand still unless flying and not over; flying starts only on a mouse-down; the bird's column changes only through a restart |
| Game.FrameKeepsInvariant | flappy_bird.py:181-258 | every frame keeps the invariant: bird counters and velocity in range, bird size fixed, the bird's column either its centred start or the reset column, pipes paired with a 150 gap and ordered and at or left of 860, score not negative, ground offset in 0, -4, ..., -32 |
| Game.RunKeepsInvariant | flappy_bird.py:180-181 | the invariant holds after any sequence of frames |
| Game.RestsOnGroundLine | flappy_bird.py:99-101 | a bird whose bottom edge is exactly 768, clear of pipes and the ceiling, does not move and the game is not over after the frame |
| Game.FirstClickStartsFlight | flappy_bird.py:254-255 | from the start, a frame with a click and a mouse-down makes the bird jump (velocity -10, latch closed, 10 px up) and starts the flight; no pipe exists yet |
| Game.FirstPairSpawns | flappy_bird.py:224-238 | flying with no pipes and after the interval, one frame leaves exactly one pair, moved to x=860, with its gap centred within 100 px of the middle, and the spawn clock at the current time |
| Game.GameOverIgnoresInput | flappy_bird.py:92-119 | after game over, input other than the restart button changes neither the bird's position nor its latch, nor the pipes, ground or clock, and starts no flight |
| Game.RestartClickResets | flappy_bird.py:242-245 | game over plus a press inside the button gives a running game, no pipes, score 0 and the bird at (100, 468) |
| Game.GameState.constructor | flappy_bird.py:27-36 | the new game state object's state is `Start` and satisfies the invariant |
| Game.GameState.ResetGame | flappy_bird.py:50-56 | `reset_game` empties the group, moves the bird's top left corner to (100, 468) and returns 0; it does not touch the global score |
| Game.GameState.CheckScore | flappy_bird.py:197-205 | the in-place score check leaves the state `ScorePhase` gives |
| Game.GameState.CheckCollisions | flappy_bird.py:210-216 | the in-place collision checks leave the state `CollisionPhase` gives |
| Game.GameState.Scroll | flappy_bird.py:221-238 | the in-place spawn, ground scroll and group update leave the state `ScrollPhase` gives |
| Game.GameState.CheckRestart | flappy_bird.py:242-245 | the in-place restart check leaves the state `RestartPhase` gives |
| Game.GameState.Step | flappy_bird.py:181-258 | one loop iteration changes the object's state to `Frame` of the old state and keeps the invariant |

## Left out

- Rendering is not modelled: every `screen.blit`, `draw_text`, the groups'
  `draw`, and the blitting half of `Button.draw`. It produces no state.
- The image transforms are not modelled: the rotation by `-2 * vel` degrees,
  the fixed -90 degrees after game over, and the flip of the top pipe. They
  only change which image is shown. The chosen image itself
  (`self.images[self.index]`) is represented by `index`.
- Asset loading, font and window setup, `pygame.init`/`quit`, `clock.tick`
  and `pygame.display.update` are not modelled. They are I/O on a library
  that is not part of this model. The images' sizes are parameters.
- The QUIT event, which ends the loop, is not modelled. Events are
  mouse-downs or other events that do nothing.
- `pygame.mouse.get_pressed`, `pygame.mouse.get_pos`, `pygame.event.get`,
  `pygame.time.get_ticks` and `random.randint` are not modelled. Their values
  are fields of `Input`, read once per frame. The offset's range of -100 to
  100 is assumed only where a property needs it (`Game.FirstPairSpawns`).
- pygame's `colliderect`, `collidepoint` and `groupcollide` are not taken
  from pygame. The model uses the predicates described above, which are
  assumptions about pygame 2.
- The bird group is not modelled as a group; it always holds the one bird.
- Pipes.UpdateMembers: it states which pipes survive and where they are, but
  not their relative order. The order is fixed by the definition of
  `Pipes.Update`, and its left-to-right consequence is `Pipes.UpdateKeepsOrder`.
- Game.Frame: it does not state that a pair scores only once over several
  frames. Per frame it states that the score rises by at most one, and, from a
  non-negative score, only when the latch armed before the frame is disarmed.
