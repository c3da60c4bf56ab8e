/** The pipes of flappy_bird.py: construction around a centre line, the
    leftward scroll of `pipe_group.update()` with the removal of pipes that
    have left the screen, the pair the spawner adds, and the invariants the
    group keeps: it is a list of (bottom, top) pairs with a fixed gap, ordered
    from the leftmost pair on. */
module Pipes {
  import opened Rects

  /** `pipe_gap`: the vertical distance between the two pipes of a pair. */
  const PipeGap := 150
  /** `scroll_speed`: pixels per frame. */
  const ScrollSpeed := 4

  /** `position` is the constructor's argument: 1 is a top pipe (the flipped
      image), -1 a bottom pipe. */
  datatype Pipe = Pipe(rect: Rect, position: int)

  /** `Pipe(x, y, position)` with an image of size w by h: a top pipe hangs
      with its bottom edge half a gap above y, a bottom pipe stands with its
      top edge half a gap below y; any other position leaves the image's
      rectangle at the origin. */
  function New(x: int, y: int, position: int, w: nat, h: nat): (p: Pipe)
    ensures p.position == position && p.rect.w == w && p.rect.h == h
    ensures position == 1 ==> p.rect.Left() == x && p.rect.Bottom() == y - PipeGap / 2
    ensures position == -1 ==> p.rect.Left() == x && p.rect.Top() == y + PipeGap / 2
    ensures position != 1 && position != -1 ==> p.rect == SizedAt0(w, h)
  {
    var r := SizedAt0(w, h);
    var r := if position == 1 then WithBottomLeft(r, x, y - PipeGap / 2) else r;
    var r := if position == -1 then WithTopLeft(r, x, y + PipeGap / 2) else r;
    Pipe(r, position)
  }

  /** `self.rect.x -= scroll_speed`. */
  function Moved(p: Pipe): Pipe
  {
    p.(rect := p.rect.(x := p.rect.x - ScrollSpeed))
  }

  /** The pipe a moved pipe came from. */
  function Unmoved(p: Pipe): Pipe
  {
    p.(rect := p.rect.(x := p.rect.x + ScrollSpeed))
  }

  /** `Pipe.update` calls `kill()` once the right edge is left of the screen. */
  predicate Alive(p: Pipe)
  {
    p.rect.Right() >= 0
  }

  /** What `Pipe.update` leaves in the group of one pipe. */
  function UpdateOne(p: Pipe): seq<Pipe>
  {
    if Alive(Moved(p)) then [Moved(p)] else []
  }

  /** `pipe_group.update()`: every pipe moves left by the scroll speed, in
      group order, and those whose right edge is then negative are removed. */
  function Update(ps: seq<Pipe>): (r: seq<Pipe>)
    ensures |r| <= |ps|
    ensures forall p :: p in r ==> Alive(p)
  {
    if |ps| == 0 then [] else UpdateOne(ps[0]) + Update(ps[1..])
  }

  /** After the update each pipe of the group is there moved by exactly the
      scroll speed if and only if it is still on screen, and nothing else is. */
  lemma {:induction false} UpdateMembers(ps: seq<Pipe>)
    ensures |Update(ps)| <= |ps|
    ensures forall q :: q in ps ==> (Moved(q) in Update(ps) <==> Alive(Moved(q)))
    ensures forall p :: p in Update(ps) ==> Alive(p) && Unmoved(p) in ps
  {
    if |ps| > 0 {
      UpdateMembers(ps[1..]);
      var r := Update(ps);
      assert r == UpdateOne(ps[0]) + Update(ps[1..]);
      forall q | q in ps ensures Moved(q) in r <==> Alive(Moved(q)) {
        if q != ps[0] {
          assert q in ps[1..];
        }
      }
    }
  }

  lemma {:induction false} UpdateAppend(ps: seq<Pipe>, p: Pipe)
    ensures Update(ps + [p]) == Update(ps) + UpdateOne(p)
  {
    if |ps| == 0 {
      assert [p][1..] == [];
    } else {
      assert (ps + [p])[1..] == ps[1..] + [p];
      UpdateAppend(ps[1..], p);
    }
  }

  /** `pipe_group.update()` as the loop over the group's sprites that it is. */
  method UpdateGroup(ps: seq<Pipe>) returns (kept: seq<Pipe>)
    ensures kept == Update(ps)
  {
    kept := [];
    var i := 0;
    while i < |ps|
      invariant 0 <= i <= |ps|
      invariant kept == Update(ps[..i])
    {
      var p := Moved(ps[i]);
      if p.rect.Right() < 0 {
        // the pipe kills itself
      } else {
        kept := kept + [p];
      }
      UpdateAppend(ps[..i], ps[i]);
      assert ps[..i + 1] == ps[..i] + [ps[i]];
      i := i + 1;
    }
    assert ps[..|ps|] == ps;
  }

  /** The spawner's pair around centre line y at x: the bottom pipe first,
      then the top pipe, appended to the group. */
  function AddPair(ps: seq<Pipe>, x: int, y: int, w: nat, h: nat): (r: seq<Pipe>)
    ensures |r| == |ps| + 2 && r[..|ps|] == ps
    ensures r[|ps|].position == -1 && r[|ps|].rect.Left() == x && r[|ps|].rect.Top() == y + PipeGap / 2
    ensures r[|ps| + 1].position == 1 && r[|ps| + 1].rect.Left() == x && r[|ps| + 1].rect.Bottom() == y - PipeGap / 2
    ensures IsPair(r[|ps|], r[|ps| + 1], w, h)
  {
    ps + [New(x, y, -1, w, h)] + [New(x, y, 1, w, h)]
  }

  /** A bottom pipe and the top pipe above it: same column, same image size,
      a gap of `PipeGap` between the top pipe's bottom and the bottom pipe's top. */
  predicate IsPair(b: Pipe, t: Pipe, w: nat, h: nat)
  {
    b.position == -1 && t.position == 1 &&
    b.rect.w == w && b.rect.h == h && t.rect.w == w && t.rect.h == h &&
    b.rect.x == t.rect.x &&
    b.rect.Top() - t.rect.Bottom() == PipeGap
  }

  /** The group is a sequence of (bottom, top) pairs. */
  predicate Paired(ps: seq<Pipe>, w: nat, h: nat)
  {
    |ps| == 0 || (|ps| >= 2 && IsPair(ps[0], ps[1], w, h) && Paired(ps[2..], w, h))
  }

  /** No pipe is left of the first one, and the rest is ordered in the same way. */
  predicate Ordered(ps: seq<Pipe>)
  {
    |ps| == 0 || ((forall q :: q in ps[1..] ==> ps[0].rect.x <= q.rect.x) && Ordered(ps[1..]))
  }

  /** Every pipe starts at or left of column `bound`. */
  predicate LeftOf(ps: seq<Pipe>, bound: int)
  {
    forall q :: q in ps ==> q.rect.x <= bound
  }

  lemma UpdateTwo(ps: seq<Pipe>)
    requires |ps| >= 2
    ensures Update(ps) == UpdateOne(ps[0]) + UpdateOne(ps[1]) + Update(ps[2..])
  {
  }

  /** Both pipes of a pair move by the same amount and leave the screen in the
      same frame, so the group stays a sequence of pairs with the same gap. */
  lemma {:induction false} UpdateKeepsPairs(ps: seq<Pipe>, w: nat, h: nat)
    requires Paired(ps, w, h)
    ensures Paired(Update(ps), w, h)
  {
    if |ps| > 0 {
      UpdateTwo(ps);
      UpdateKeepsPairs(ps[2..], w, h);
      var tail := Update(ps[2..]);
      if Alive(Moved(ps[0])) {
        var head := [Moved(ps[0]), Moved(ps[1])];
        assert IsPair(head[0], head[1], w, h);
        assert Update(ps) == head + tail;
        assert (head + tail)[2..] == tail;
      } else {
        assert Update(ps) == tail;
      }
    }
  }

  /** Moving every pipe by the same amount and dropping some keeps the order. */
  lemma {:induction false} UpdateKeepsOrder(ps: seq<Pipe>)
    requires Ordered(ps)
    ensures Ordered(Update(ps))
  {
    if |ps| > 0 {
      var tail := Update(ps[1..]);
      UpdateKeepsOrder(ps[1..]);
      UpdateMembers(ps[1..]);
      if Alive(Moved(ps[0])) {
        var r := Update(ps);
        assert r == [Moved(ps[0])] + tail;
        assert r[1..] == tail;
        forall q | q in r[1..] ensures r[0].rect.x <= q.rect.x {
          assert Unmoved(q) in ps[1..];
          assert ps[0].rect.x <= Unmoved(q).rect.x;
        }
        assert Ordered(r[1..]);
      } else {
        assert Update(ps) == tail;
      }
    }
  }

  /** Moving every pipe left keeps them left of a moved bound. */
  lemma UpdateKeepsLeftOf(ps: seq<Pipe>, bound: int)
    requires LeftOf(ps, bound)
    ensures LeftOf(Update(ps), bound - ScrollSpeed)
  {
  }

  /** A pair appended right of every pipe keeps the group paired and ordered. */
  lemma {:induction false} AddPairKeepsInvariants(ps: seq<Pipe>, x: int, y: int, w: nat, h: nat)
    requires Paired(ps, w, h) && Ordered(ps) && LeftOf(ps, x)
    ensures Paired(AddPair(ps, x, y, w, h), w, h)
    ensures Ordered(AddPair(ps, x, y, w, h))
    ensures LeftOf(AddPair(ps, x, y, w, h), x)
  {
    var b, t := New(x, y, -1, w, h), New(x, y, 1, w, h);
    var pair := [b, t];
    assert AddPair(ps, x, y, w, h) == ps + pair;
    assert pair[2..] == [] && Paired(pair, w, h);
    assert pair[1..] == [t] && [t][1..] == [];
    assert Ordered(pair);
    PairedAppend(ps, pair, w, h);
    OrderedAppend(ps, pair, x);
  }

  /** One scroll frame, with or without a new pair at column x, keeps the
      group paired, ordered and left of x less one scroll. */
  lemma ScrollKeepsInvariants(ps: seq<Pipe>, spawn: bool, x: int, y: int, w: nat, h: nat)
    requires Paired(ps, w, h) && Ordered(ps) && LeftOf(ps, x - ScrollSpeed)
    ensures var qs := if spawn then AddPair(ps, x, y, w, h) else ps;
            Paired(Update(qs), w, h) && Ordered(Update(qs)) && LeftOf(Update(qs), x - ScrollSpeed)
  {
    var qs := if spawn then AddPair(ps, x, y, w, h) else ps;
    if spawn {
      AddPairKeepsInvariants(ps, x, y, w, h);
    }
    assert LeftOf(qs, x);
    UpdateKeepsPairs(qs, w, h);
    UpdateKeepsOrder(qs);
    UpdateKeepsLeftOf(qs, x);
  }

  lemma {:induction false} PairedAppend(ps: seq<Pipe>, qs: seq<Pipe>, w: nat, h: nat)
    requires Paired(ps, w, h) && Paired(qs, w, h)
    ensures Paired(ps + qs, w, h)
  {
    if |ps| == 0 {
      assert ps + qs == qs;
    } else {
      assert (ps + qs)[2..] == ps[2..] + qs;
      PairedAppend(ps[2..], qs, w, h);
    }
  }

  lemma {:induction false} OrderedAppend(ps: seq<Pipe>, qs: seq<Pipe>, x: int)
    requires Ordered(ps) && Ordered(qs)
    requires LeftOf(ps, x)
    requires forall q :: q in qs ==> x <= q.rect.x
    ensures Ordered(ps + qs)
  {
    if |ps| == 0 {
      assert ps + qs == qs;
    } else {
      assert (ps + qs)[1..] == ps[1..] + qs;
      OrderedAppend(ps[1..], qs, x);
    }
  }

  /** In a paired, ordered group the first pipe, the one the score is checked
      against, is a bottom pipe and no pipe is left of it. */
  lemma FirstPipeIsLeftmostBottom(ps: seq<Pipe>, w: nat, h: nat)
    requires Paired(ps, w, h) && Ordered(ps) && |ps| > 0
    ensures ps[0].position == -1
    ensures forall q :: q in ps ==> ps[0].rect.x <= q.rect.x
  {
  }
}
