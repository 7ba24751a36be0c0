/** Pathfinder trajectories as the post-processing pass of `generatePaths` sees them,
    and the flip that mirrors a tank-drive pair for a path driven in reverse. */
module Trajectories {

  /** `Trajectory.Segment`, with its doubles modelled as exact reals. */
  datatype Segment = Segment(
    dt: real,
    x: real,
    y: real,
    position: real,
    velocity: real,
    acceleration: real,
    jerk: real,
    heading: real)

  type Trajectory = seq<Segment>

  /** The left and right wheel trajectories `TankModifier.modify` produces. */
  datatype TankPair = TankPair(left: Trajectory, right: Trajectory)

  /** One segment of a flipped side: every field but `dt` and `heading` negated. */
  function Negated(s: Segment): Segment {
    Segment(s.dt, -s.x, -s.y, -s.position, -s.velocity, -s.acceleration, -s.jerk, s.heading)
  }

  /** `segments.map { ... }` over one side. */
  function Mirrored(t: Trajectory): Trajectory {
    seq(|t|, i requires 0 <= i < |t| => Negated(t[i]))
  }

  /** The post-processing choice: with `flip` the new left is the mirrored old right
      and the new right the mirrored old left; without it the pair is kept. */
  function FlipSides(p: TankPair, flip: bool): TankPair {
    if flip then TankPair(Mirrored(p.right), Mirrored(p.left)) else p
  }

  /** Without `flip` both trajectories pass through unchanged. */
  lemma NoFlipUnchanged(p: TankPair)
    ensures FlipSides(p, false) == p
  {
  }

  /** With `flip` the sides swap, segment counts are kept, and each segment keeps
      `dt` and `heading` while x, y, position, velocity, acceleration and jerk
      change sign. */
  lemma FlipSwapsAndNegates(p: TankPair)
    ensures |FlipSides(p, true).left| == |p.right| && |FlipSides(p, true).right| == |p.left|
    ensures forall i :: 0 <= i < |p.right| ==>
              var s, f := p.right[i], FlipSides(p, true).left[i];
              f.dt == s.dt && f.heading == s.heading &&
              f.x == -s.x && f.y == -s.y && f.position == -s.position &&
              f.velocity == -s.velocity && f.acceleration == -s.acceleration && f.jerk == -s.jerk
    ensures forall i :: 0 <= i < |p.left| ==>
              var s, f := p.left[i], FlipSides(p, true).right[i];
              f.dt == s.dt && f.heading == s.heading &&
              f.x == -s.x && f.y == -s.y && f.position == -s.position &&
              f.velocity == -s.velocity && f.acceleration == -s.acceleration && f.jerk == -s.jerk
  {
  }

  lemma MirroredTwice(t: Trajectory)
    ensures Mirrored(Mirrored(t)) == t
  {
    var m := Mirrored(Mirrored(t));
    assert |m| == |t|;
    forall i | 0 <= i < |t|
      ensures m[i] == t[i]
    {
      assert Mirrored(t)[i] == Negated(t[i]);
    }
  }

  /** Flipping twice gives back the original pair. */
  lemma FlipTwice(p: TankPair, flip: bool)
    ensures FlipSides(FlipSides(p, flip), flip) == p
  {
    if flip {
      MirroredTwice(p.left);
      MirroredTwice(p.right);
    }
  }
}
