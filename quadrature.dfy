/**
 * The quadrature side of the mouse (mouse.c): the Amiga reads the movement
 * from two channels, horizontal (lines H and HQ) and vertical (V and VQ).
 * Each channel steps through four phases in Gray order, and the Amiga counts
 * one unit per phase step, forward or backward. The main loop drains the
 * pending deltas one step per axis at a time.
 */
module Quadrature {

  /** The levels of the two lines of one channel: (H, HQ) or (V, VQ). */
  datatype Pair = Pair(first: bool, second: bool)

  /** The levels of all four lines. */
  datatype Lines = Lines(hor: Pair, ver: Pair)

  datatype Axis = Hor | Ver

  function Channel(l: Lines, axis: Axis): Pair
  {
    if axis == Hor then l.hor else l.ver
  }

  /** The table of `SetQuadraturePhases`: phases 0, 1, 2, 3 drive (LOW, LOW), (HIGH, LOW), (HIGH, HIGH), (LOW, HIGH). */
  function Gray(phase: nat): Pair
    requires phase < 4
  {
    if phase == 0 then Pair(false, false)
    else if phase == 1 then Pair(true, false)
    else if phase == 2 then Pair(true, true)
    else Pair(false, true)
  }

  /** The phase that a pair of line levels shows, as the Amiga decodes it. */
  function PhaseOf(p: Pair): nat
  {
    if !p.first && !p.second then 0
    else if p.first && !p.second then 1
    else if p.first && p.second then 2
    else 3
  }

  /** The four phases and the four level pairs correspond one to one. */
  lemma GrayRoundTrip(phase: nat, p: Pair)
    requires phase < 4
    ensures PhaseOf(Gray(phase)) == phase
    ensures PhaseOf(p) < 4 && Gray(PhaseOf(p)) == p
  {
  }

  /** The number of lines on which two level pairs differ. */
  function Changed(p: Pair, q: Pair): (n: nat)
    ensures n <= 2
    ensures n == 0 <==> p == q
  {
    (if p.first != q.first then 1 else 0) + (if p.second != q.second then 1 else 0)
  }

  /**
   * Gray order: neighbouring phases (mod 4) differ on exactly one line,
   * phases two apart on both lines.
   */
  lemma GrayAdjacent(phase: nat)
    requires phase < 4
    ensures Changed(Gray(phase), Gray((phase + 1) % 4)) == 1
    ensures Changed(Gray(phase), Gray((phase + 3) % 4)) == 1
    ensures Changed(Gray(phase), Gray((phase + 2) % 4)) == 2
  {
  }

  /** What the Amiga's counter does when a channel goes from `p` to `q`: +1 one phase forward, -1 one phase back, 0 otherwise. */
  function Count(p: Pair, q: Pair): int
  {
    var a, b := PhaseOf(p), PhaseOf(q);
    if b == (a + 1) % 4 then 1 else if a == (b + 1) % 4 then -1 else 0
  }

  /** One step of a pending delta toward zero. */
  function Toward(d: int): (r: int)
    ensures -1 <= d - r <= 1
    ensures d == 0 ==> r == 0
    ensures d != 0 ==> Abs(r) == Abs(d) - 1
  {
    if d > 0 then d - 1 else if d < 0 then d + 1 else d
  }

  function Abs(d: int): nat
  {
    if d < 0 then -d else d
  }

  function Max(a: nat, b: nat): nat
  {
    if a < b then b else a
  }

  /** The phase after one step of an axis with pending delta `d`: +1 forward, +3 (one back) backward. */
  function Advance(phase: nat, d: int): (r: nat)
    requires phase < 4
    ensures r < 4
    ensures (r - phase) % 4 == if d > 0 then 1 else if d < 0 then 3 else 0
  {
    if d > 0 then (phase + 1) % 4 else if d < 0 then (phase + 3) % 4 else phase
  }

  /**
   * The line levels after each `SetQuadraturePhases` call of the drain loop,
   * starting from phases `h`, `v` with pending deltas `dx`, `dy`: one call per
   * iteration, both axes stepping in the same iteration.
   */
  function DrainPath(h: nat, v: nat, dx: int, dy: int): seq<Lines>
    requires h < 4 && v < 4
    decreases Abs(dx) + Abs(dy)
  {
    if dx == 0 && dy == 0 then []
    else
      var h', v' := Advance(h, dx), Advance(v, dy);
      [Lines(Gray(h'), Gray(v'))] + DrainPath(h', v', Toward(dx), Toward(dy))
  }

  /** The net count the Amiga accumulates on one axis while the lines go from `prev` through `path`. */
  function Counted(prev: Lines, path: seq<Lines>, axis: Axis): int
    decreases |path|
  {
    if path == [] then 0
    else Count(Channel(prev, axis), Channel(path[0], axis)) + Counted(path[0], path[1..], axis)
  }

  /** No channel ever changes both of its lines at once, so the Amiga never misses a step. */
  predicate Smooth(prev: Lines, path: seq<Lines>)
    decreases |path|
  {
    path == [] ||
    (Changed(prev.hor, path[0].hor) <= 1 && Changed(prev.ver, path[0].ver) <= 1 && Smooth(path[0], path[1..]))
  }

  /** The delta a channel steps by, as the Amiga counts it. */
  function Sign(d: int): int
  {
    if d > 0 then 1 else if d < 0 then -1 else 0
  }

  /** One phase step is counted as the sign of the pending delta. */
  lemma CountAdvance(phase: nat, d: int)
    requires phase < 4
    ensures Count(Gray(phase), Gray(Advance(phase, d))) == Sign(d)
    ensures Changed(Gray(phase), Gray(Advance(phase, d))) <= 1
  {
    GrayRoundTrip(phase, Gray(phase));
    GrayRoundTrip(Advance(phase, d), Gray(phase));
    GrayAdjacent(phase);
  }

  /** The drain loop makes exactly max(|dx|, |dy|) calls of `SetQuadraturePhases`. */
  lemma {:induction false} DrainLength(h: nat, v: nat, dx: int, dy: int)
    requires h < 4 && v < 4
    ensures |DrainPath(h, v, dx, dy)| == Max(Abs(dx), Abs(dy))
    decreases Abs(dx) + Abs(dy)
  {
    if dx != 0 || dy != 0 {
      DrainLength(Advance(h, dx), Advance(v, dy), Toward(dx), Toward(dy));
    }
  }

  /** The Amiga counts exactly `dx` horizontal and `dy` vertical units over the whole drain. */
  lemma {:induction false} DrainCounts(h: nat, v: nat, dx: int, dy: int)
    requires h < 4 && v < 4
    ensures Counted(Lines(Gray(h), Gray(v)), DrainPath(h, v, dx, dy), Hor) == dx
    ensures Counted(Lines(Gray(h), Gray(v)), DrainPath(h, v, dx, dy), Ver) == dy
    decreases Abs(dx) + Abs(dy)
  {
    if dx != 0 || dy != 0 {
      var h', v' := Advance(h, dx), Advance(v, dy);
      var path := DrainPath(h, v, dx, dy);
      assert path[0] == Lines(Gray(h'), Gray(v'));
      assert path[1..] == DrainPath(h', v', Toward(dx), Toward(dy));
      DrainCounts(h', v', Toward(dx), Toward(dy));
      CountAdvance(h, dx);
      CountAdvance(v, dy);
    }
  }

  /** Every step of the drain changes at most one line per channel. */
  lemma {:induction false} DrainSmooth(h: nat, v: nat, dx: int, dy: int)
    requires h < 4 && v < 4
    ensures Smooth(Lines(Gray(h), Gray(v)), DrainPath(h, v, dx, dy))
    decreases Abs(dx) + Abs(dy)
  {
    if dx != 0 || dy != 0 {
      var h', v' := Advance(h, dx), Advance(v, dy);
      var path := DrainPath(h, v, dx, dy);
      assert path[1..] == DrainPath(h', v', Toward(dx), Toward(dy));
      DrainSmooth(h', v', Toward(dx), Toward(dy));
      CountAdvance(h, dx);
      CountAdvance(v, dy);
    }
  }

  /** After the drain each channel shows phase (start + delta) mod 4. */
  lemma DrainEnds(h: nat, v: nat, dx: int, dy: int)
    requires h < 4 && v < 4 && (dx != 0 || dy != 0)
    ensures DrainPath(h, v, dx, dy) != []
    ensures Last(DrainPath(h, v, dx, dy)) == Lines(Gray((h + dx) % 4), Gray((v + dy) % 4))
  {
    DrainLast(h, v, dx, dy);
    DrainEndMod(h, dx);
    DrainEndMod(v, dy);
  }

  /** The last lines of the drain show the phases `DrainEnd` gives. */
  lemma {:induction false} DrainLast(h: nat, v: nat, dx: int, dy: int)
    requires h < 4 && v < 4 && (dx != 0 || dy != 0)
    ensures DrainPath(h, v, dx, dy) != []
    ensures Last(DrainPath(h, v, dx, dy)) == Lines(Gray(DrainEnd(h, dx)), Gray(DrainEnd(v, dy)))
    decreases Abs(dx) + Abs(dy)
  {
    var h', v' := Advance(h, dx), Advance(v, dy);
    if Toward(dx) != 0 || Toward(dy) != 0 {
      DrainLast(h', v', Toward(dx), Toward(dy));
      assert Last(DrainPath(h, v, dx, dy)) == Last(DrainPath(h', v', Toward(dx), Toward(dy)));
    }
  }

  function Last(s: seq<Lines>): Lines
    requires s != []
  {
    s[|s| - 1]
  }

  /** The phase an axis ends at once its pending delta `d` is drained from `phase`. */
  function DrainEnd(phase: nat, d: int): (r: nat)
    requires phase < 4
    ensures r < 4
    decreases Abs(d)
  {
    if d == 0 then phase else DrainEnd(Advance(phase, d), Toward(d))
  }

  /** Draining moves a phase by the delta, mod 4. */
  lemma {:induction false} DrainEndMod(phase: nat, d: int)
    requires phase < 4
    ensures DrainEnd(phase, d) == (phase + d) % 4
    decreases Abs(d)
  {
    if d != 0 {
      DrainEndMod(Advance(phase, d), Toward(d));
      AdvanceMod(phase, d);
    }
  }

  /** A step of the phase and of the pending delta keep their sum mod 4. */
  lemma AdvanceMod(phase: nat, d: int)
    requires phase < 4
    ensures (Advance(phase, d) + Toward(d)) % 4 == (phase + d) % 4
  {
  }

  /** A diagonal move shares its calls: (3, -2) is drained in three calls, the first two moving both axes. */
  lemma DiagonalExample()
    ensures |DrainPath(0, 0, 3, -2)| == 3
    ensures DrainPath(0, 0, 3, -2) == [Lines(Gray(1), Gray(3)), Lines(Gray(2), Gray(2)), Lines(Gray(3), Gray(2))]
  {
    assert DrainPath(3, 2, 0, 0) == [];
    assert DrainPath(2, 2, 1, 0) == [Lines(Gray(3), Gray(2))];
    assert DrainPath(1, 3, 2, -1) == [Lines(Gray(2), Gray(2)), Lines(Gray(3), Gray(2))];
  }
}
