/**
 * The cursor trail: every `mousemove` pushes the cursor position, and once
 * the buffer is longer than `maxTrailLength` the oldest point is shifted out.
 */
module Trail {

  /** A cursor sample: `clientX`, `clientY` and the `Date.now()` of the event. */
  datatype Point = Point(x: int, y: int, time: int)

  /** `maxTrailLength`. */
  const MaxTrailLength: nat := 10

  /** The buffer after one move: push, then shift once if it has grown past the limit. */
  function Pushed(trail: seq<Point>, p: Point): seq<Point> {
    var grown := trail + [p];
    if |grown| > MaxTrailLength then grown[1..] else grown
  }

  /** The buffer after a run of moves, starting from the empty buffer of page load. */
  function Replay(moves: seq<Point>): seq<Point> {
    if moves == [] then [] else Pushed(Replay(moves[..|moves| - 1]), moves[|moves| - 1])
  }

  function Min(a: nat, b: nat): nat {
    if a <= b then a else b
  }

  /** A buffer within the limit stays within it, and the newest point always ends it. */
  lemma PushedWithinLimit(trail: seq<Point>, p: Point)
    requires |trail| <= MaxTrailLength
    ensures |Pushed(trail, p)| <= MaxTrailLength
    ensures Pushed(trail, p)[|Pushed(trail, p)| - 1] == p
    ensures |trail| < MaxTrailLength ==> Pushed(trail, p) == trail + [p]
    ensures |trail| == MaxTrailLength ==> Pushed(trail, p) == trail[1..] + [p]
  {
  }

  /** The limit is kept only as an invariant: a single shift does not bring an overfull buffer back down. */
  lemma OverfullStaysOverfull(trail: seq<Point>, p: Point)
    requires |trail| > MaxTrailLength
    ensures |Pushed(trail, p)| == |trail|
  {
  }

  /** After any run of moves the buffer holds exactly the last ten of them (all of them, if fewer), oldest first. */
  lemma {:induction false} ReplayKeepsLatest(moves: seq<Point>)
    ensures Replay(moves) == moves[|moves| - Min(|moves|, MaxTrailLength)..]
  {
    if moves != [] {
      var front := moves[..|moves| - 1];
      var p := moves[|moves| - 1];
      ReplayKeepsLatest(front);
      var kept := front[|front| - Min(|front|, MaxTrailLength)..];
      assert kept + [p] == moves[|front| - Min(|front|, MaxTrailLength)..];
      if |kept + [p]| > MaxTrailLength {
        assert (kept + [p])[1..] == moves[|moves| - MaxTrailLength..];
      }
    }
  }

  /** The `mouseTrail` array of `initFloatingElements`. */
  class MouseTrail {
    var points: seq<Point>

    ghost predicate Valid()
      reads this
    {
      |points| <= MaxTrailLength
    }

    constructor ()
      ensures Valid() && points == []
    {
      points := [];
    }

    /** The `mousemove` handler. */
    method Move(p: Point)
      requires Valid()
      modifies this
      ensures Valid()
      ensures points == Pushed(old(points), p)
    {
      points := points + [p];
      if |points| > MaxTrailLength {
        points := points[1..];
      }
    }
  }
}
