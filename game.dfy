/** One frame of the `while run` loop of flappy_bird.py and the game state it
    changes: the module-level flags and counters, the bird and the pipe group.

    A frame runs, in the source's order: the bird update, the score check
    against the first pipe of the group, the pipe and ceiling collision, the
    ground check, then (only while flying and not over) the spawner, the ground
    scroll and the pipe update, then the restart button, then the mouse-down
    events. The mouse button, the pointer position, the events, the clock and
    the random offset of a frame are its `Input`. */
module Game {
  import opened Rects
  import Birds
  import opened Pipes

  const ScreenWidth := 864
  const ScreenHeight := 936
  /** `int(screen_height / 2)`: the bird's start line and the pipes' centre line. */
  const MidY := ScreenHeight / 2
  /** The bird's start column. */
  const StartX := 100
  /** `pipe_frequency`: milliseconds between pairs. */
  const PipeFrequency := 1500
  /** The ground strip restarts once it has scrolled further than this. */
  const GroundWrap := 35

  /** The sizes of the images, which fix the rectangles' sizes. */
  datatype Assets = Assets(birdW: nat, birdH: nat, pipeW: nat, pipeH: nat, buttonW: nat, buttonH: nat)

  /** The kinds of event the loop reacts to. */
  datatype Event = MouseButtonDown | OtherEvent

  /** What one frame reads from outside: the left mouse button, the pointer,
      the queued events, `pygame.time.get_ticks()` and `random.randint(-100, 100)`. */
  datatype Input = Input(pressed: bool, pointerX: int, pointerY: int, events: seq<Event>, now: int, offset: int)

  /** The state a frame changes. */
  datatype World = World(
    bird: Birds.BirdState,
    pipes: seq<Pipe>,
    score: int,
    flying: bool,
    gameOver: bool,
    passPipe: bool,
    groundScroll: int,
    lastPipe: int)

  /** The ground strip's offset is one of 0, -4, ..., -32. */
  predicate GroundValid(g: int)
  {
    -32 <= g <= 0 && g % ScrollSpeed == 0
  }

  /** What every frame keeps: the bird's counters in range and its size fixed,
      its column either the centred start or the reset column, the group a
      sequence of pairs ordered from the left and not right of the column the
      pipes spawn at minus one scroll, a non-negative score and the ground offset. */
  predicate Inv(a: Assets, w: World)
  {
    Birds.Valid(w.bird) &&
    w.bird.rect.w == a.birdW && w.bird.rect.h == a.birdH &&
    (w.bird.rect.x == StartX - a.birdW / 2 || w.bird.rect.x == StartX) &&
    Paired(w.pipes, a.pipeW, a.pipeH) && Ordered(w.pipes) &&
    LeftOf(w.pipes, ScreenWidth - ScrollSpeed) &&
    w.score >= 0 &&
    GroundValid(w.groundScroll)
  }

  /** The module-level state before the first frame; `ticks` is the clock when
      `last_pipe` is set. */
  function Start(a: Assets, ticks: int): (w: World)
    ensures Inv(a, w)
    ensures w.pipes == [] && w.score == 0 && !w.flying && !w.gameOver && !w.passPipe
    ensures w.bird.rect.CenterX() == StartX && w.bird.rect.CenterY() == MidY
    ensures w.lastPipe == ticks && w.groundScroll == 0
    ensures w.bird == Birds.Initial(StartX, MidY, a.birdW, a.birdH)
  {
    World(Birds.Initial(StartX, MidY, a.birdW, a.birdH), [], 0, false, false, false, 0, ticks)
  }

  /** `bird_group.update()`. */
  function BirdPhase(w: World, pressed: bool): World
  {
    w.(bird := Birds.Next(w.bird, w.flying, w.gameOver, pressed))
  }

  /** The bird is horizontally strictly inside the pipe. */
  predicate Between(bird: Rect, pipe: Rect)
  {
    bird.Left() > pipe.Left() && bird.Right() < pipe.Right()
  }

  /** The bird's left edge is past the pipe's right edge. */
  predicate Past(bird: Rect, pipe: Rect)
  {
    bird.Left() > pipe.Right()
  }

  /** The score check against the first pipe of the group: the latch is armed
      while the bird is inside that pipe's columns and scores one point, and
      disarms, once the bird is past it. */
  function ScorePhase(w: World): (r: World)
    ensures r == w.(score := r.score, passPipe := r.passPipe)
    ensures r.score == w.score || r.score == w.score + 1
    ensures r.score == w.score + 1 <==>
              w.passPipe && |w.pipes| > 0 && Past(w.bird.rect, w.pipes[0].rect)
    ensures r.score == w.score + 1 ==> !r.passPipe
    ensures r.passPipe && !w.passPipe ==> |w.pipes| > 0 && Between(w.bird.rect, w.pipes[0].rect)
    ensures |w.pipes| > 0 && !Past(w.bird.rect, w.pipes[0].rect) ==>
              (r.passPipe <==> w.passPipe || Between(w.bird.rect, w.pipes[0].rect))
    ensures |w.pipes| == 0 ==> r == w
  {
    if |w.pipes| == 0 then w
    else
      var b := w.bird.rect;
      var p := w.pipes[0].rect;
      var armed := if Between(b, p) && !w.passPipe then true else w.passPipe;
      if armed && Past(b, p) then w.(score := w.score + 1, passPipe := false)
      else w.(passPipe := armed)
  }

  /** `groupcollide(bird_group, pipe_group)` for the one bird. */
  predicate HitsPipe(bird: Rect, ps: seq<Pipe>): (hit: bool)
    ensures hit <==> exists i :: 0 <= i < |ps| && Overlaps(bird, ps[i].rect)
    ensures hit ==> |ps| > 0 && bird.w > 0 && bird.h > 0
  {
    exists q :: q in ps && Overlaps(bird, q.rect)
  }

  /** The pipe and ceiling check, then the ground check. */
  function CollisionPhase(w: World): (r: World)
    ensures r == w.(gameOver := r.gameOver, flying := r.flying)
    ensures r.gameOver <==>
              w.gameOver || HitsPipe(w.bird.rect, w.pipes) ||
              w.bird.rect.Top() < 0 || w.bird.rect.Bottom() > Birds.GroundLine
    ensures r.flying <==> w.flying && w.bird.rect.Bottom() <= Birds.GroundLine
  {
    var over := if HitsPipe(w.bird.rect, w.pipes) || w.bird.rect.Top() < 0 then true else w.gameOver;
    if w.bird.rect.Bottom() > Birds.GroundLine then w.(gameOver := true, flying := false)
    else w.(gameOver := over)
  }

  /** The spawner: once more than `PipeFrequency` ms have passed since the last
      pair, a bottom and then a top pipe are added at the right edge of the
      screen around the centre line moved by the random offset. */
  function SpawnPhase(a: Assets, w: World, now: int, offset: int): (r: World)
    ensures r == w.(pipes := r.pipes, lastPipe := r.lastPipe)
    ensures now - w.lastPipe <= PipeFrequency ==> r == w
    ensures now - w.lastPipe > PipeFrequency ==>
              var n := |w.pipes|;
              r.lastPipe == now &&
              |r.pipes| == n + 2 && r.pipes[..n] == w.pipes &&
              r.pipes[n].position == -1 && r.pipes[n].rect.Left() == ScreenWidth &&
              r.pipes[n].rect.Top() == MidY + offset + PipeGap / 2 &&
              r.pipes[n + 1].position == 1 && r.pipes[n + 1].rect.Left() == ScreenWidth &&
              r.pipes[n + 1].rect.Bottom() == MidY + offset - PipeGap / 2 &&
              r.pipes[n].rect.Top() - r.pipes[n + 1].rect.Bottom() == PipeGap &&
              IsPair(r.pipes[n], r.pipes[n + 1], a.pipeW, a.pipeH)
  {
    if now - w.lastPipe > PipeFrequency then
      w.(pipes := AddPair(w.pipes, ScreenWidth, MidY + offset, a.pipeW, a.pipeH), lastPipe := now)
    else w
  }

  function Abs(n: int): nat { if n < 0 then -n else n }

  /** The ground strip scrolls left and wraps back to 0 once it is more than
      `GroundWrap` pixels out. */
  function ScrollGround(g: int): (r: int)
    ensures r == g - ScrollSpeed || r == 0
    ensures Abs(g - ScrollSpeed) <= GroundWrap ==> r == g - ScrollSpeed
    ensures -GroundWrap <= r <= GroundWrap
    ensures GroundValid(g) ==> GroundValid(r)
  {
    var g' := g - ScrollSpeed;
    if Abs(g') > GroundWrap then 0 else g'
  }

  /** The part of the frame that runs only while flying and not over: spawn,
      ground scroll, pipe update. Otherwise pipes, ground and clock stand still. */
  function ScrollPhase(a: Assets, w: World, now: int, offset: int): (r: World)
    ensures r == w.(pipes := r.pipes, lastPipe := r.lastPipe, groundScroll := r.groundScroll)
    ensures w.gameOver || !w.flying ==> r == w
    ensures !w.gameOver && w.flying ==>
              r.groundScroll == ScrollGround(w.groundScroll) &&
              r.lastPipe == SpawnPhase(a, w, now, offset).lastPipe &&
              (forall q :: q in SpawnPhase(a, w, now, offset).pipes ==> (Moved(q) in r.pipes <==> Alive(Moved(q)))) &&
              (forall p :: p in r.pipes ==> Alive(p) && Unmoved(p) in SpawnPhase(a, w, now, offset).pipes)
  {
    if !w.gameOver && w.flying then
      var s := SpawnPhase(a, w, now, offset);
      UpdateMembers(s.pipes);
      s.(groundScroll := ScrollGround(s.groundScroll), pipes := Update(s.pipes))
    else w
  }

  /** The restart button's rectangle, top left at
      (screen_width // 2 - 50, screen_height // 2 - 100). */
  function ButtonRect(a: Assets): (r: Rect)
    ensures r.Left() == 382 && r.Top() == 368
    ensures r.w == a.buttonW && r.h == a.buttonH
  {
    Rect(ScreenWidth / 2 - 50, ScreenHeight / 2 - 100, a.buttonW, a.buttonH)
  }

  /** The hit test of `Button.draw()`: the pointer is over the button and the
      left button is down. */
  predicate ButtonAction(a: Assets, px: int, py: int, pressed: bool): (action: bool)
    ensures action <==> pressed && 382 <= px < 382 + a.buttonW && 368 <= py < 368 + a.buttonH
  {
    ContainsPoint(ButtonRect(a), px, py) && pressed
  }

  /** `game_over = False; score = reset_game()`: the group is emptied, the
      bird's top left corner is put at the start point and the score is 0.
      Flying, the velocity, the latches, the ground and the clock are kept. */
  function Restart(w: World): (r: World)
    ensures !r.gameOver && r.pipes == [] && r.score == 0
    ensures r.bird.rect.Left() == StartX && r.bird.rect.Top() == MidY
    ensures r.bird == w.bird.(rect := r.bird.rect) && r.bird.rect.w == w.bird.rect.w && r.bird.rect.h == w.bird.rect.h
    ensures r == w.(bird := r.bird, pipes := [], score := 0, gameOver := false)
  {
    w.(gameOver := false,
       pipes := [],
       bird := w.bird.(rect := w.bird.rect.(x := StartX, y := MidY)),
       score := 0)
  }

  /** Restarting twice is restarting once. */
  lemma RestartIdempotent(w: World)
    ensures Restart(Restart(w)) == Restart(w)
  {
  }

  /** The restart happens only when the game is over and the button is hit;
      the button is live as long as it is held. */
  function RestartPhase(a: Assets, w: World, px: int, py: int, pressed: bool): (r: World)
    ensures w.gameOver && ButtonAction(a, px, py, pressed) ==> r == Restart(w)
    ensures !(w.gameOver && ButtonAction(a, px, py, pressed)) ==> r == w
  {
    if w.gameOver && ButtonAction(a, px, py, pressed) then Restart(w) else w
  }

  /** The event loop: a mouse-down starts the flight, unless the game is over. */
  function EventPhase(w: World, events: seq<Event>): (r: World)
    ensures r == w.(flying := r.flying)
    ensures r.flying <==>
              w.flying || (!w.gameOver && exists i :: 0 <= i < |events| && events[i] == MouseButtonDown)
  {
    w.(flying := w.flying || (!w.gameOver && MouseButtonDown in events))
  }

  /** `for event in pygame.event.get()`, for the mouse-down branch. */
  method ProcessEvents(events: seq<Event>, flying: bool, gameOver: bool) returns (flying': bool)
    ensures flying' <==> flying || (!gameOver && MouseButtonDown in events)
  {
    flying' := flying;
    for i := 0 to |events|
      invariant flying' <==> flying || (!gameOver && MouseButtonDown in events[..i])
    {
      if events[i] == MouseButtonDown && !flying' && !gameOver {
        flying' := true;
      }
      assert events[..i + 1] == events[..i] + [events[i]];
    }
    assert events[..|events|] == events;
  }

  /** One iteration of the `while run` loop. */
  function Frame(a: Assets, w: World, input: Input): (r: World)
    // the score rises by at most one, and falls only through a restart
    ensures r.score == w.score || r.score == w.score + 1 || r.score == 0
    ensures r.score < w.score ==>
              r.score == 0 && r.pipes == [] && !r.gameOver &&
              r.bird.rect.Left() == StartX && r.bird.rect.Top() == MidY &&
              input.pressed && ContainsPoint(ButtonRect(a), input.pointerX, input.pointerY)
    // a point is scored only by disarming a latch armed in an earlier frame
    ensures w.score >= 0 && r.score == w.score + 1 ==> w.passPipe && !r.passPipe
    // only a restart ends the game-over state
    ensures w.gameOver && !r.gameOver ==>
              r.pipes == [] && r.score == 0 &&
              input.pressed && ContainsPoint(ButtonRect(a), input.pointerX, input.pointerY)
    // pipes, ground and spawn clock stand still unless flying and not over
    ensures w.gameOver || !w.flying ==>
              (r.pipes == w.pipes || r.pipes == []) &&
              r.groundScroll == w.groundScroll && r.lastPipe == w.lastPipe
    // flying starts only on a mouse-down
    ensures !w.flying && r.flying ==> MouseButtonDown in input.events
    // the bird's column changes only through a restart
    ensures r.bird.rect.x != w.bird.rect.x ==> r.bird.rect.x == StartX && r.pipes == [] && r.score == 0
  {
    var w1 := BirdPhase(w, input.pressed);
    var w2 := ScorePhase(w1);
    var w3 := CollisionPhase(w2);
    var w4 := ScrollPhase(a, w3, input.now, input.offset);
    var w5 := RestartPhase(a, w4, input.pointerX, input.pointerY, input.pressed);
    EventPhase(w5, input.events)
  }

  /** The phases other than the scroll change nothing the pipe invariants
      speak of, except a restart, which empties the group. */
  lemma EarlyPhasesKeepInvariant(a: Assets, w: World, pressed: bool)
    requires Inv(a, w)
    ensures Inv(a, CollisionPhase(ScorePhase(BirdPhase(w, pressed))))
  {
  }

  lemma {:induction false} ScrollPhaseKeepsInvariant(a: Assets, w: World, now: int, offset: int)
    requires Inv(a, w)
    ensures Inv(a, ScrollPhase(a, w, now, offset))
  {
    if !w.gameOver && w.flying {
      var spawn := now - w.lastPipe > PipeFrequency;
      ScrollKeepsInvariants(w.pipes, spawn, ScreenWidth, MidY + offset, a.pipeW, a.pipeH);
    }
  }

  lemma LatePhasesKeepInvariant(a: Assets, w: World, input: Input)
    requires Inv(a, w)
    ensures Inv(a, EventPhase(RestartPhase(a, w, input.pointerX, input.pointerY, input.pressed), input.events))
  {
  }

  /** Every frame keeps the invariant. */
  lemma {:induction false} FrameKeepsInvariant(a: Assets, w: World, input: Input)
    requires Inv(a, w)
    ensures Inv(a, Frame(a, w, input))
  {
    var w3 := CollisionPhase(ScorePhase(BirdPhase(w, input.pressed)));
    EarlyPhasesKeepInvariant(a, w, input.pressed);
    var w4 := ScrollPhase(a, w3, input.now, input.offset);
    ScrollPhaseKeepsInvariant(a, w3, input.now, input.offset);
    LatePhasesKeepInvariant(a, w4, input);
  }

  /** A run of frames. */
  function Run(a: Assets, w: World, ins: seq<Input>): World
    decreases |ins|
  {
    if |ins| == 0 then w else Run(a, Frame(a, w, ins[0]), ins[1..])
  }

  /** The invariant holds after any number of frames from the start. */
  lemma {:induction false} RunKeepsInvariant(a: Assets, w: World, ins: seq<Input>)
    requires Inv(a, w)
    ensures Inv(a, Run(a, w, ins))
    decreases |ins|
  {
    if |ins| > 0 {
      FrameKeepsInvariant(a, w, ins[0]);
      RunKeepsInvariant(a, Frame(a, w, ins[0]), ins[1..]);
    }
  }

  /** The bird moves only while its bottom edge is above the ground line, and
      the game ends only once it is below it: a bird whose bottom edge is
      exactly on the line, clear of pipes, stays where it is and the game goes on. */
  lemma RestsOnGroundLine(a: Assets, w: World, input: Input)
    requires !w.gameOver && w.bird.rect.Bottom() == Birds.GroundLine
    requires w.bird.rect.Top() >= 0 && !HitsPipe(w.bird.rect, w.pipes)
    ensures Frame(a, w, input).bird.rect == w.bird.rect
    ensures !Frame(a, w, input).gameOver
  {
  }

  /** The first click from the start: the bird jumps (the velocity becomes the
      impulse, the latch closes) and the flight begins; no pipe exists yet,
      because the spawner only runs once flying was already set. */
  lemma FirstClickStartsFlight(a: Assets, ticks: int, input: Input)
    requires a.birdH <= 400
    requires input.pressed && MouseButtonDown in input.events
    ensures var w := Start(a, ticks);
            var r := Frame(a, w, input);
            r.flying && !r.gameOver && r.pipes == [] && r.score == 0 &&
            r.bird.vel == Birds.JumpVel && r.bird.clicked &&
            r.bird.rect.y == w.bird.rect.y - 10
  {
  }

  /** Once the interval has passed with no pipes alive, a frame of flight ends
      with exactly one pair, moved once, whose gap is centred within 100
      pixels of the middle line. */
  lemma FirstPairSpawns(a: Assets, w: World, input: Input)
    requires w.flying && !w.gameOver && w.pipes == [] && Birds.Valid(w.bird)
    requires 10 <= w.bird.rect.Top() && w.bird.rect.Bottom() <= Birds.GroundLine - 8
    requires input.now - w.lastPipe > PipeFrequency && -100 <= input.offset <= 100
    ensures var r := Frame(a, w, input);
            |r.pipes| == 2 && IsPair(r.pipes[0], r.pipes[1], a.pipeW, a.pipeH) &&
            r.pipes[0].rect.Left() == ScreenWidth - ScrollSpeed &&
            MidY - 100 <= r.pipes[0].rect.Top() - PipeGap / 2 <= MidY + 100 &&
            r.lastPipe == input.now && r.flying && !r.gameOver
  {
    var w3 := CollisionPhase(ScorePhase(BirdPhase(w, input.pressed)));
    assert !w3.gameOver && w3.flying;
    var s := SpawnPhase(a, w3, input.now, input.offset);
    assert s.pipes == [New(ScreenWidth, MidY + input.offset, -1, a.pipeW, a.pipeH),
                       New(ScreenWidth, MidY + input.offset, 1, a.pipeW, a.pipeH)];
    UpdateTwo(s.pipes);
    assert s.pipes[2..] == [];
    assert Update(s.pipes) == [Moved(s.pipes[0]), Moved(s.pipes[1])];
  }

  /** After game over the game ignores input other than the restart button:
      the bird neither jumps nor moves, the latch is kept, the pipes and the
      score stay, and no mouse-down starts a flight. */
  lemma GameOverIgnoresInput(a: Assets, w: World, input: Input)
    requires w.gameOver && !ButtonAction(a, input.pointerX, input.pointerY, input.pressed)
    ensures var r := Frame(a, w, input);
            r.gameOver && r.pipes == w.pipes && r.bird.rect == w.bird.rect &&
            r.bird.clicked == w.bird.clicked && (r.flying ==> w.flying) &&
            r.groundScroll == w.groundScroll && r.lastPipe == w.lastPipe
  {
  }

  /** Game over after a restart click: the state comes back with an empty
      group, the bird at the start point, score 0 and the game running. */
  lemma RestartClickResets(a: Assets, w: World, input: Input)
    requires w.gameOver && ButtonAction(a, input.pointerX, input.pointerY, input.pressed)
    ensures var r := Frame(a, w, input);
            !r.gameOver && r.pipes == [] && r.score == 0 &&
            r.bird.rect.Left() == StartX && r.bird.rect.Top() == MidY
  {
  }

  /** The game state object: the module-level variables of the source, the bird
      object and the pipe group. */
  class GameState {
    const assets: Assets
    const bird: Birds.Bird
    var pipes: seq<Pipe>
    var score: int
    var flying: bool
    var gameOver: bool
    var passPipe: bool
    var groundScroll: int
    var lastPipe: int

    function State(): World
      reads this, bird
    {
      World(bird.State(), pipes, score, flying, gameOver, passPipe, groundScroll, lastPipe)
    }

    ghost predicate Valid()
      reads this, bird
    {
      Inv(assets, State())
    }

    constructor (assets: Assets, ticks: int)
      ensures Valid() && fresh(bird)
      ensures this.assets == assets && State() == Start(assets, ticks)
    {
      this.assets := assets;
      groundScroll := 0;
      flying := false;
      gameOver := false;
      lastPipe := ticks;
      score := 0;
      passPipe := false;
      pipes := [];
      bird := new Birds.Bird(StartX, MidY, assets.birdW, assets.birdH);
    }

    /** `reset_game()`: empties the group and puts the bird's top left corner at
        the start point; it returns the new score and leaves the global one alone. */
    method ResetGame() returns (newScore: int)
      modifies this, bird
      ensures newScore == 0
      ensures State() == old(State()).(pipes := [],
                                        bird := old(bird.State()).(rect := old(bird.rect).(x := StartX, y := MidY)))
    {
      pipes := [];
      bird.rect := bird.rect.(x := StartX);
      bird.rect := bird.rect.(y := MidY);
      newScore := 0;
    }

    /** The score check of the loop body. */
    method CheckScore()
      modifies this
      ensures State() == ScorePhase(old(State()))
    {
      if |pipes| > 0 {
        if bird.rect.Left() > pipes[0].rect.Left() && bird.rect.Right() < pipes[0].rect.Right() && !passPipe {
          passPipe := true;
        }
        if passPipe {
          if bird.rect.Left() > pipes[0].rect.Right() {
            score := score + 1;
            passPipe := false;
          }
        }
      }
    }

    /** The pipe, ceiling and ground checks of the loop body. */
    method CheckCollisions()
      modifies this
      ensures State() == CollisionPhase(old(State()))
    {
      if HitsPipe(bird.rect, pipes) || bird.rect.Top() < 0 {
        gameOver := true;
      }
      if bird.rect.Bottom() > Birds.GroundLine {
        gameOver := true;
        flying := false;
      }
    }

    /** Spawner, ground scroll and `pipe_group.update()`, run while flying and not over. */
    method Scroll(timeNow: int, offset: int)
      modifies this
      ensures State() == ScrollPhase(assets, old(State()), timeNow, offset)
    {
      if !gameOver && flying {
        if timeNow - lastPipe > PipeFrequency {
          var btmPipe := New(ScreenWidth, MidY + offset, -1, assets.pipeW, assets.pipeH);
          var topPipe := New(ScreenWidth, MidY + offset, 1, assets.pipeW, assets.pipeH);
          pipes := pipes + [btmPipe];
          pipes := pipes + [topPipe];
          lastPipe := timeNow;
        }
        groundScroll := groundScroll - ScrollSpeed;
        if Abs(groundScroll) > GroundWrap {
          groundScroll := 0;
        }
        pipes := UpdateGroup(pipes);
      }
    }

    /** The restart button, live only while the game is over. */
    method CheckRestart(pointerX: int, pointerY: int, pressed: bool)
      modifies this, bird
      ensures State() == RestartPhase(assets, old(State()), pointerX, pointerY, pressed)
    {
      if gameOver {
        if ButtonAction(assets, pointerX, pointerY, pressed) {
          gameOver := false;
          score := ResetGame();
        }
      }
    }

    /** One iteration of the `while run` loop. */
    method Step(input: Input)
      requires Valid()
      modifies this, bird
      ensures Valid()
      ensures State() == Frame(assets, old(State()), input)
    {
      ghost var w := State();
      FrameKeepsInvariant(assets, w, input);
      bird.Update(flying, gameOver, input.pressed);
      ghost var w1 := State();
      assert w1 == BirdPhase(w, input.pressed);
      CheckScore();
      CheckCollisions();
      ghost var w3 := State();
      assert w3 == CollisionPhase(ScorePhase(w1));
      Scroll(input.now, input.offset);
      CheckRestart(input.pointerX, input.pointerY, input.pressed);
      ghost var w5 := State();
      assert w5 == RestartPhase(assets, ScrollPhase(assets, w3, input.now, input.offset),
                                input.pointerX, input.pointerY, input.pressed);
      flying := ProcessEvents(input.events, flying, gameOver);
      assert State() == EventPhase(w5, input.events);
    }
  }
}
