/**
 * The scoring engine: five counters and a total that every mutator
 * recomputes from them.
 */
module Scoring {

  const DistanceMultiplier: int := 1
  const TrickMultiplier: int := 10
  const ComboMultiplier: int := 5
  const BounceMultiplier: int := 20
  const ObstacleMultiplier: int := 15

  /** Distance (in pixels) that is worth one distance point before the multiplier. */
  const DistanceUnit: real := 10.0

  /** The score components as one value. */
  datatype Counters = Counters(distance: real, tricks: int, combos: int, bounces: int, obstacles: int)

  /** One point per full `DistanceUnit` travelled: the floor of distance / 10. */
  function DistanceScore(distance: real): (points: int)
    ensures points as real <= distance / DistanceUnit < points as real + 1.0
    ensures 0.0 <= distance ==> 0 <= points
  {
    (distance / DistanceUnit).Floor * DistanceMultiplier
  }

  /** The total score the counters are worth. */
  function Total(c: Counters): (t: int)
    ensures 0 <= c.tricks && 0 <= c.combos && 0 <= c.bounces && 0 <= c.obstacles ==> DistanceScore(c.distance) <= t
    ensures 0.0 <= c.distance && 0 <= c.tricks && 0 <= c.combos && 0 <= c.bounces && 0 <= c.obstacles ==> 0 <= t
    ensures c.tricks == 0 && c.combos == 0 && c.bounces == 0 && c.obstacles == 0 ==> t == DistanceScore(c.distance)
  {
    DistanceScore(c.distance)
    + c.tricks * TrickMultiplier
    + c.combos * ComboMultiplier
    + c.bounces * BounceMultiplier
    + c.obstacles * ObstacleMultiplier
  }

  /** Every counter of `a` is at most the same counter of `b`. */
  predicate Dominated(a: Counters, b: Counters)
  {
    a.distance <= b.distance && a.tricks <= b.tricks && a.combos <= b.combos
    && a.bounces <= b.bounces && a.obstacles <= b.obstacles
  }

  /** One entry of the breakdown: the raw count and the points it contributes. */
  datatype Component<T> = Component(value: T, score: int)

  datatype ScoreBreakdown = ScoreBreakdown(
    distance: Component<real>,
    tricks: Component<int>,
    combos: Component<int>,
    bounces: Component<int>,
    obstacles: Component<int>,
    total: int)

  /** The worked example of the scoring rule: 23 + 20 + 5 + 60 + 0. */
  lemma TotalExample()
    ensures Total(Counters(235.0, 2, 1, 3, 0)) == 108
  {
    assert (235.0 / DistanceUnit).Floor == 23;
  }

  /** Raising any counter never lowers the total. */
  lemma TotalMonotone(a: Counters, b: Counters)
    requires Dominated(a, b)
    ensures Total(a) <= Total(b)
  {
    FloorMonotone(a.distance / DistanceUnit, b.distance / DistanceUnit);
  }

  lemma FloorMonotone(x: real, y: real)
    requires x <= y
    ensures x.Floor <= y.Floor
  {
  }

  /** Adding `v` events of one kind adds `v` times that kind's multiplier to the total. */
  lemma TotalAddEvents(c: Counters, v: int)
    ensures Total(c.(tricks := c.tricks + v)) == Total(c) + v * TrickMultiplier
    ensures Total(c.(combos := c.combos + v)) == Total(c) + v * ComboMultiplier
    ensures Total(c.(bounces := c.bounces + v)) == Total(c) + v * BounceMultiplier
    ensures Total(c.(obstacles := c.obstacles + v)) == Total(c) + v * ObstacleMultiplier
  {
  }

  class ScoreManager {
    var distance: real
    var tricks: int
    var combos: int
    var bounces: int
    var obstacles: int
    var totalScore: int

    function Counts(): (c: Counters)
      reads this
    {
      Counters(distance, tricks, combos, bounces, obstacles)
    }

    /** The stored total is the one the counters are worth. */
    ghost predicate Valid()
      reads this
    {
      totalScore == Total(Counts())
    }

    constructor ()
      ensures Valid()
      ensures Counts() == Counters(0.0, 0, 0, 0, 0) && totalScore == 0
    {
      distance, tricks, combos, bounces, obstacles := 0.0, 0, 0, 0, 0;
      totalScore := 0;
    }

    method ResetScore()
      modifies this
      ensures Valid()
      ensures Counts() == Counters(0.0, 0, 0, 0, 0) && totalScore == 0
    {
      distance := 0.0;
      tricks := 0;
      combos := 0;
      bounces := 0;
      obstacles := 0;
      totalScore := 0;
    }

    /** Overwrites the distance only and recomputes the total. */
    method SetDistance(d: real)
      modifies this
      ensures Valid()
      ensures Counts() == old(Counts()).(distance := d)
    {
      distance := d;
      CalculateTotalScore();
    }

    method AddTrick(value: int := 1)
      modifies this
      ensures Valid()
      ensures Counts() == old(Counts()).(tricks := old(tricks) + value)
      ensures old(Valid()) && value >= 0 ==> totalScore >= old(totalScore)
    {
      tricks := tricks + value;
      CalculateTotalScore();
      if value >= 0 { TotalMonotone(old(Counts()), Counts()); }
    }

    method AddCombo(value: int := 1)
      modifies this
      ensures Valid()
      ensures Counts() == old(Counts()).(combos := old(combos) + value)
      ensures old(Valid()) && value >= 0 ==> totalScore >= old(totalScore)
    {
      combos := combos + value;
      CalculateTotalScore();
      if value >= 0 { TotalMonotone(old(Counts()), Counts()); }
    }

    method AddBounce(value: int := 1)
      modifies this
      ensures Valid()
      ensures Counts() == old(Counts()).(bounces := old(bounces) + value)
      ensures old(Valid()) && value >= 0 ==> totalScore >= old(totalScore)
    {
      bounces := bounces + value;
      CalculateTotalScore();
      if value >= 0 { TotalMonotone(old(Counts()), Counts()); }
    }

    method AddObstacle(value: int := 1)
      modifies this
      ensures Valid()
      ensures Counts() == old(Counts()).(obstacles := old(obstacles) + value)
      ensures old(Valid()) && value >= 0 ==> totalScore >= old(totalScore)
    {
      obstacles := obstacles + value;
      CalculateTotalScore();
      if value >= 0 { TotalMonotone(old(Counts()), Counts()); }
    }

    /** Recomputes the stored total from the counters. */
    method CalculateTotalScore()
      modifies this`totalScore
      ensures Valid()
    {
      var distanceScore := (distance / DistanceUnit).Floor * DistanceMultiplier;
      var trickScore := tricks * TrickMultiplier;
      var comboScore := combos * ComboMultiplier;
      var bounceScore := bounces * BounceMultiplier;
      var obstacleScore := obstacles * ObstacleMultiplier;
      totalScore := distanceScore + trickScore + comboScore + bounceScore + obstacleScore;
    }

    method GetTotalScore() returns (t: int)
      requires Valid()
      ensures t == Total(Counts())
    {
      t := totalScore;
    }

    method GetDistance() returns (d: real)
      ensures d == Counts().distance
    {
      d := distance;
    }

    method GetTricks() returns (n: int)
      ensures n == Counts().tricks
    {
      n := tricks;
    }

    method GetCombos() returns (n: int)
      ensures n == Counts().combos
    {
      n := combos;
    }

    method GetBounces() returns (n: int)
      ensures n == Counts().bounces
    {
      n := bounces;
    }

    method GetObstacles() returns (n: int)
      ensures n == Counts().obstacles
    {
      n := obstacles;
    }

    /**
     * A read-only projection of the counters: each component's raw value and
     * its points, and a total equal to the sum of the component points.
     */
    method GetScoreBreakdown() returns (b: ScoreBreakdown)
      requires Valid()
      ensures b.distance == Component(distance, DistanceScore(distance))
      ensures b.tricks == Component(tricks, tricks * TrickMultiplier)
      ensures b.combos == Component(combos, combos * ComboMultiplier)
      ensures b.bounces == Component(bounces, bounces * BounceMultiplier)
      ensures b.obstacles == Component(obstacles, obstacles * ObstacleMultiplier)
      ensures b.total == b.distance.score + b.tricks.score + b.combos.score
                         + b.bounces.score + b.obstacles.score
    {
      b := ScoreBreakdown(
        Component(distance, (distance / DistanceUnit).Floor * DistanceMultiplier),
        Component(tricks, tricks * TrickMultiplier),
        Component(combos, combos * ComboMultiplier),
        Component(bounces, bounces * BounceMultiplier),
        Component(obstacles, obstacles * ObstacleMultiplier),
        totalScore);
    }
  }
}
