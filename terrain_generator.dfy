/**
 * The terrain generator: a first-in-first-out window of fixed-width ground
 * segments, extended at the tail in batches and retired from the head, plus
 * the trampolines and obstacles placed on top of the segments. Every segment
 * and feature owns one static body in the physics world.
 */
module Terrain {
  import opened Physics

  const SegmentWidth: real := 200.0
  /** Number of segments appended when the player nears the end of the terrain. */
  const BatchSize: nat := 5
  /** Chance that a batch-generated segment gets a trampoline, and, failing that, an obstacle. */
  const TrampolineChance: real := 0.3
  const ObstacleChance: real := 0.2
  /** How far above the ground surface a feature's centre sits. */
  const TrampolineLift: real := 10.0
  const ObstacleLift: real := 30.0

  /** One slice of ground: its left edge, width, height and static body. */
  datatype Segment = Segment(x: real, width: real, height: real, body: BodyId)

  /** A trampoline or obstacle: the position of its static body, and the body. */
  datatype Feature = Feature(x: real, y: real, body: BodyId)

  /** The two random draws made for one batch-generated segment, each in [0, 1). */
  datatype Roll = Roll(trampolineDraw: real, obstacleDraw: real)

  datatype Placement = PlaceTrampoline | PlaceObstacle | PlaceNothing

  function Right(s: Segment): (r: real)
  {
    s.x + s.width
  }

  function Ceil(r: real): (c: int)
    ensures c as real - 1.0 < r <= c as real
  {
    -((-r).Floor)
  }

  /** The number of segments generated at the start: enough to cover the world width, plus five. */
  function InitialSegmentCount(worldWidth: real): (n: int)
    ensures worldWidth <= (n - 5) as real * SegmentWidth < worldWidth + SegmentWidth
  {
    Ceil(worldWidth / SegmentWidth) + 5
  }

  /** Segment `i + 1` starts where segment `i` ends. */
  predicate JoinedAt(segs: seq<Segment>, i: int)
  {
    0 <= i < |segs| - 1 && Right(segs[i]) == segs[i + 1].x
  }

  /**
   * Each segment starts where the one before it ends. Stated through
   * `JoinedAt` so that the fact for index i is only used where a proof asks for it.
   */
  ghost predicate Contiguous(segs: seq<Segment>)
  {
    forall i | 0 <= i < |segs| - 1 :: JoinedAt(segs, i)
  }

  /** Contiguous fixed-width segments whose heights follow the height function. */
  ghost predicate Shaped(segs: seq<Segment>, heightAt: real -> real)
  {
    && Contiguous(segs)
    && forall i | 0 <= i < |segs| :: segs[i].width == SegmentWidth && segs[i].height == heightAt(segs[i].x)
  }

  ghost predicate SegmentsRegistered(segs: seq<Segment>, bodies: map<BodyId, Label>)
  {
    forall i | 0 <= i < |segs| :: segs[i].body in bodies && bodies[segs[i].body] == Ground
  }

  ghost predicate FeaturesRegistered(fs: seq<Feature>, bodies: map<BodyId, Label>, kind: Label)
  {
    forall i | 0 <= i < |fs| :: fs[i].body in bodies && bodies[fs[i].body] == kind
  }

  /** Body `a` was created before body `b`. */
  predicate Older(a: BodyId, b: BodyId)
  {
    a < b
  }

  /**
   * Bodies are created in list order, so their ids increase along each list.
   * The trigger keeps these pairwise facts from being instantiated for every
   * pair of list elements a proof happens to mention.
   */
  ghost predicate SegmentIdsIncrease(segs: seq<Segment>)
  {
    forall i, j {:trigger Older(segs[i].body, segs[j].body)} | 0 <= i < j < |segs| :: Older(segs[i].body, segs[j].body)
  }

  ghost predicate FeatureIdsIncrease(fs: seq<Feature>)
  {
    forall i, j {:trigger Older(fs[i].body, fs[j].body)} | 0 <= i < j < |fs| :: Older(fs[i].body, fs[j].body)
  }

  function SegmentIds(segs: seq<Segment>): (ids: set<BodyId>)
  {
    set i | 0 <= i < |segs| :: segs[i].body
  }

  function FeatureIds(fs: seq<Feature>): (ids: set<BodyId>)
  {
    set i | 0 <= i < |fs| :: fs[i].body
  }

  /** Ids of the features whose x position lies before `cutoff`. */
  function BehindIds(fs: seq<Feature>, cutoff: real): (ids: set<BodyId>)
  {
    set i | 0 <= i < |fs| && fs[i].x < cutoff :: fs[i].body
  }

  // ---------------------------------------------------------------------
  // Initial feature pattern

  /** Initial trampolines go on segments 1, 4, 7, ... below the last index. */
  predicate HostsTrampoline(i: int, n: int)
  {
    1 <= i < n - 1 && i % 3 == 1
  }

  /** Initial obstacles go on segments 2, 6, 10, ... below the last index. */
  predicate HostsObstacle(i: int, n: int)
  {
    2 <= i < n - 1 && i % 4 == 2
  }

  /** The k-th initial trampoline sits on segment 1 + 3k; there are n / 3 of them. */
  lemma TrampolineSlots(n: nat, i: int)
    ensures HostsTrampoline(i, n) <==> exists k :: 0 <= k < n / 3 && i == 1 + 3 * k
  {
    if HostsTrampoline(i, n) {
      var k := (i - 1) / 3;
      assert 0 <= k < n / 3 && i == 1 + 3 * k;
    }
  }

  /** The k-th initial obstacle sits on segment 2 + 4k; there are n / 4 of them. */
  lemma ObstacleSlots(n: nat, i: int)
    ensures HostsObstacle(i, n) <==> exists k :: 0 <= k < n / 4 && i == 2 + 4 * k
  {
    if HostsObstacle(i, n) {
      var k := (i - 2) / 4;
      assert 0 <= k < n / 4 && i == 2 + 4 * k;
    }
  }

  /** The feature `f` sits on top of segment `s`, `lift` above its surface. */
  predicate SitsOn(f: Feature, s: Segment, lift: real, screenHeight: real)
  {
    f.x == s.x + SegmentWidth / 2.0 && f.y == screenHeight - s.height - lift
  }

  /** The k-th feature sits on top of segment `first + stride * k`. */
  ghost predicate OnPattern(fs: seq<Feature>, segs: seq<Segment>, first: nat, stride: nat, lift: real, screenHeight: real)
  {
    forall k | 0 <= k < |fs| ::
      first + stride * k < |segs| && SitsOn(fs[k], segs[first + stride * k], lift, screenHeight)
  }

  /** The k-th trampoline sits on top of segment 1 + 3k. */
  ghost predicate TrampolinesOnPattern(fs: seq<Feature>, segs: seq<Segment>, screenHeight: real)
  {
    OnPattern(fs, segs, 1, 3, TrampolineLift, screenHeight)
  }

  /** The k-th obstacle sits on top of segment 2 + 4k. */
  ghost predicate ObstaclesOnPattern(fs: seq<Feature>, segs: seq<Segment>, screenHeight: real)
  {
    OnPattern(fs, segs, 2, 4, ObstacleLift, screenHeight)
  }

  /** Placing the next feature on the next segment of the pattern extends the pattern. */
  lemma OnPatternAppend(fs: seq<Feature>, segs: seq<Segment>, first: nat, stride: nat, lift: real, screenHeight: real, f: Feature)
    requires OnPattern(fs, segs, first, stride, lift, screenHeight)
    requires first + stride * |fs| < |segs| && SitsOn(f, segs[first + stride * |fs|], lift, screenHeight)
    ensures OnPattern(fs + [f], segs, first, stride, lift, screenHeight)
  {
    var t := fs + [f];
    forall k | 0 <= k < |t|
      ensures first + stride * k < |segs| && SitsOn(t[k], segs[first + stride * k], lift, screenHeight)
    {
      if k < |fs| {
        assert t[k] == fs[k];
      }
    }
  }

  /** When the trampoline loop stops after placing `t` pads, it has placed n / 3 of them. */
  lemma TrampolineLoopCount(n: nat, t: nat)
    requires n - 1 <= 1 + 3 * t && (t == 0 || 1 + 3 * (t - 1) < n - 1)
    ensures t == n / 3
  {
  }

  /** When the obstacle loop stops after placing `t` obstacles, it has placed n / 4 of them. */
  lemma ObstacleLoopCount(n: nat, t: nat)
    requires n - 1 <= 2 + 4 * t && (t == 0 || 2 + 4 * (t - 1) < n - 1)
    ensures t == n / 4
  {
  }

  /** The initial pattern does not keep features apart: segment 10 gets both. */
  lemma InitialFeaturesCoincide(n: nat)
    requires n >= 12
    ensures HostsTrampoline(10, n) && HostsObstacle(10, n)
  {
  }

  // ---------------------------------------------------------------------
  // Random features of a generated batch

  /** The trampoline draw is made first; the obstacle draw only counts if it fails. */
  function Choose(r: Roll): (p: Placement)
  {
    if r.trampolineDraw < TrampolineChance then PlaceTrampoline
    else if r.obstacleDraw < ObstacleChance then PlaceObstacle
    else PlaceNothing
  }

  /** Which feature the draws select: the trampoline draw wins, the obstacle draw only counts when it fails. */
  lemma ChooseExactly(r: Roll)
    ensures Choose(r) == PlaceTrampoline <==> r.trampolineDraw < TrampolineChance
    ensures Choose(r) == PlaceObstacle <==> TrampolineChance <= r.trampolineDraw && r.obstacleDraw < ObstacleChance
    ensures Choose(r) == PlaceNothing <==> TrampolineChance <= r.trampolineDraw && ObstacleChance <= r.obstacleDraw
  {
  }

  /**
   * The positions of the features of one kind that a batch places on `segs`,
   * where `rolls[i]` are the draws made for `segs[i]`.
   */
  function Planned(segs: seq<Segment>, rolls: seq<Roll>, kind: Placement, lift: real, screenHeight: real): (spots: seq<(real, real)>)
    requires |segs| <= |rolls|
  {
    if |segs| == 0 then []
    else
      var n := |segs| - 1;
      Planned(segs[..n], rolls, kind, lift, screenHeight)
      + (if Choose(rolls[n]) == kind then [(segs[n].x + SegmentWidth / 2.0, screenHeight - segs[n].height - lift)] else [])
  }

  /** The positions of the features, in order. */
  function Spots(fs: seq<Feature>): (r: seq<(real, real)>)
    ensures |r| == |fs|
  {
    if fs == [] then [] else Spots(fs[..|fs| - 1]) + [(fs[|fs| - 1].x, fs[|fs| - 1].y)]
  }

  /** Planning for one more segment appends the spot its own draws give it, if any. */
  lemma PlannedAppend(segs: seq<Segment>, rolls: seq<Roll>, kind: Placement, lift: real, screenHeight: real, s: Segment)
    requires |segs| < |rolls|
    ensures Planned(segs + [s], rolls, kind, lift, screenHeight)
         == Planned(segs, rolls, kind, lift, screenHeight)
            + (if Choose(rolls[|segs|]) == kind then [(s.x + SegmentWidth / 2.0, screenHeight - s.height - lift)] else [])
  {
    assert (segs + [s])[..|segs|] == segs;
  }

  lemma SpotsAppend(fs: seq<Feature>, f: Feature)
    ensures Spots(fs + [f]) == Spots(fs) + [(f.x, f.y)]
  {
    assert (fs + [f])[..|fs|] == fs;
  }

  /** The feature of kind `kind` the draws `r` put on segment `s`, as a list of none or one, with body `id`. */
  function Placed(s: Segment, r: Roll, kind: Placement, lift: real, screenHeight: real, id: BodyId): (fs: seq<Feature>)
    ensures |fs| <= 1
  {
    if Choose(r) == kind then [Feature(s.x + SegmentWidth / 2.0, screenHeight - s.height - lift, id)] else []
  }

  /** Placing the feature planned for one more segment keeps the placed spots equal to the plan. */
  lemma PlannedStep(segs: seq<Segment>, fs: seq<Feature>, rolls: seq<Roll>, kind: Placement, lift: real,
                    screenHeight: real, s: Segment, id: BodyId)
    requires |segs| < |rolls|
    requires Spots(fs) == Planned(segs, rolls, kind, lift, screenHeight)
    ensures Spots(fs + Placed(s, rolls[|segs|], kind, lift, screenHeight, id))
         == Planned(segs + [s], rolls, kind, lift, screenHeight)
  {
    PlannedAppend(segs, rolls, kind, lift, screenHeight, s);
    var r := rolls[|segs|];
    if Choose(r) == kind {
      var spot := (s.x + SegmentWidth / 2.0, screenHeight - s.height - lift);
      var f := Feature(spot.0, spot.1, id);
      assert Placed(s, r, kind, lift, screenHeight, id) == [f];
      SpotsAppend(fs, f);
      assert Spots(fs + [f]) == Spots(fs) + [spot];
    } else {
      assert Placed(s, r, kind, lift, screenHeight, id) == [];
      assert fs + [] == fs;
    }
  }

  /** A batch gives each segment at most one feature. */
  lemma {:induction false} AtMostOneFeaturePerSegment(segs: seq<Segment>, rolls: seq<Roll>, screenHeight: real)
    requires |segs| <= |rolls|
    ensures |Planned(segs, rolls, PlaceTrampoline, TrampolineLift, screenHeight)|
          + |Planned(segs, rolls, PlaceObstacle, ObstacleLift, screenHeight)| <= |segs|
  {
    if |segs| > 0 {
      AtMostOneFeaturePerSegment(segs[..|segs| - 1], rolls, screenHeight);
    }
  }

  // ---------------------------------------------------------------------
  // Retirement

  /** The number of leading segments whose right edge lies before `cutoff`. */
  function Retired(segs: seq<Segment>, cutoff: real): (n: nat)
    ensures n <= |segs|
    ensures forall k | 0 <= k < n :: Right(segs[k]) < cutoff
    ensures n == |segs| || cutoff <= Right(segs[n])
  {
    if |segs| > 0 && Right(segs[0]) < cutoff then 1 + Retired(segs[1..], cutoff) else 0
  }

  /** Along contiguous segments of positive width the right edges increase. */
  lemma {:induction false} RightEdgesIncrease(segs: seq<Segment>, i: nat, j: nat)
    requires Contiguous(segs) && forall k | 0 <= k < |segs| :: segs[k].width > 0.0
    requires i <= j < |segs|
    ensures Right(segs[i]) <= Right(segs[j])
    decreases j - i
  {
    if i < j {
      assert JoinedAt(segs, i);
      RightEdgesIncrease(segs, i + 1, j);
    }
  }

  /**
   * On contiguous segments, stopping at the first ineligible segment loses
   * nothing: the retired segments are exactly those whose right edge lies
   * before the cutoff.
   */
  lemma RetiredExactly(segs: seq<Segment>, cutoff: real, k: nat)
    requires Contiguous(segs) && forall i | 0 <= i < |segs| :: segs[i].width > 0.0
    requires k < |segs|
    ensures k < Retired(segs, cutoff) <==> Right(segs[k]) < cutoff
  {
    var n := Retired(segs, cutoff);
    if n <= k {
      RightEdgesIncrease(segs, n, k);
    }
  }

  /** Along contiguous segments of the standard width, segment `base + k` starts 200 k after segment `base`. */
  lemma {:induction false} PositionFrom(segs: seq<Segment>, heightAt: real -> real, base: nat, k: nat)
    requires Shaped(segs, heightAt) && base + k < |segs|
    ensures segs[base + k].x == segs[base].x + k as real * SegmentWidth
  {
    if k > 0 {
      PositionFrom(segs, heightAt, base, k - 1);
      assert JoinedAt(segs, base + k - 1);
    }
  }

  /** A suffix of contiguous segments is contiguous. */
  lemma SuffixShaped(segs: seq<Segment>, d: nat, heightAt: real -> real)
    requires Shaped(segs, heightAt) && d <= |segs|
    ensures Shaped(segs[d..], heightAt)
  {
    var t := segs[d..];
    forall i | 0 <= i < |t| - 1
      ensures JoinedAt(t, i)
    {
      assert JoinedAt(segs, d + i);
    }
  }

  /** The features kept by the cleanup, in their original order. */
  function KeepAhead(fs: seq<Feature>, cutoff: real): (r: seq<Feature>)
    ensures |r| <= |fs|
    ensures forall k | 0 <= k < |r| :: r[k] in fs && cutoff <= r[k].x
  {
    if |fs| == 0 then []
    else
      var n := |fs| - 1;
      KeepAhead(fs[..n], cutoff) + (if cutoff <= fs[n].x then [fs[n]] else [])
  }

  /** Every feature at or past the cutoff survives the cleanup. */
  lemma {:induction false} KeepAheadComplete(fs: seq<Feature>, cutoff: real, f: Feature)
    requires f in fs && cutoff <= f.x
    ensures f in KeepAhead(fs, cutoff)
  {
    var n := |fs| - 1;
    if fs[n] != f {
      assert f in fs[..n] by {
        var i :| 0 <= i < |fs| && fs[i] == f;
        assert i < n && fs[..n][i] == f;
      }
      KeepAheadComplete(fs[..n], cutoff, f);
    }
  }

  /** Filtering keeps the order of creation, so ids still increase. */
  lemma {:induction false} KeepAheadIdsIncrease(fs: seq<Feature>, cutoff: real)
    requires FeatureIdsIncrease(fs)
    ensures FeatureIdsIncrease(KeepAhead(fs, cutoff))
  {
    if |fs| > 0 {
      var n := |fs| - 1;
      var prefix := fs[..n];
      KeepAheadIdsIncrease(prefix, cutoff);
      var kept := KeepAhead(prefix, cutoff);
      if cutoff <= fs[n].x {
        if kept != [] {
          var p :| 0 <= p < n && prefix[p] == kept[|kept| - 1];
          assert Older(fs[p].body, fs[n].body);
        }
        FeatureIdsIncreaseAppend(kept, fs[n]);
      } else {
        assert KeepAhead(fs, cutoff) == kept + [] == kept;
      }
    }
  }

  /** Appending a body newer than the last one keeps the ids increasing. */
  lemma SegmentIdsIncreaseAppend(segs: seq<Segment>, s: Segment)
    requires SegmentIdsIncrease(segs) && (segs != [] ==> segs[|segs| - 1].body < s.body)
    ensures SegmentIdsIncrease(segs + [s])
  {
    var t := segs + [s];
    forall i, j | 0 <= i < j < |t| ensures Older(t[i].body, t[j].body) {
      if j < |segs| {
        assert Older(segs[i].body, segs[j].body);
      } else if i < |segs| - 1 {
        assert Older(segs[i].body, segs[|segs| - 1].body);
      }
    }
  }

  lemma FeatureIdsIncreaseAppend(fs: seq<Feature>, f: Feature)
    requires FeatureIdsIncrease(fs) && (fs != [] ==> fs[|fs| - 1].body < f.body)
    ensures FeatureIdsIncrease(fs + [f])
  {
    var t := fs + [f];
    forall i, j | 0 <= i < j < |t| ensures Older(t[i].body, t[j].body) {
      if j < |fs| {
        assert Older(fs[i].body, fs[j].body);
      } else if i < |fs| - 1 {
        assert Older(fs[i].body, fs[|fs| - 1].body);
      }
    }
  }

  /** In a list of increasing ids that starts at or above `lo`, every id is at least `lo`. */
  lemma SegmentIdsFrom(segs: seq<Segment>, lo: BodyId)
    requires SegmentIdsIncrease(segs) && (segs != [] ==> lo <= segs[0].body)
    ensures forall k | 0 <= k < |segs| :: lo <= segs[k].body
    ensures forall id | id in SegmentIds(segs) :: lo <= id
  {
    forall k | 0 < k < |segs| ensures lo <= segs[k].body {
      assert Older(segs[0].body, segs[k].body);
    }
  }

  lemma FeatureIdsFrom(fs: seq<Feature>, lo: BodyId)
    requires FeatureIdsIncrease(fs) && (fs != [] ==> lo <= fs[0].body)
    ensures forall k | 0 <= k < |fs| :: lo <= fs[k].body
    ensures forall id | id in FeatureIds(fs) :: lo <= id
  {
    forall k | 0 < k < |fs| ensures lo <= fs[k].body {
      assert Older(fs[0].body, fs[k].body);
    }
  }

  lemma SegmentIdsAppend(segs: seq<Segment>, s: Segment)
    ensures SegmentIds(segs + [s]) == SegmentIds(segs) + {s.body}
  {
    var t := segs + [s];
    assert t[|segs|] == s;
    forall id | id in SegmentIds(segs) ensures id in SegmentIds(t) {
      var i :| 0 <= i < |segs| && segs[i].body == id;
      assert t[i] == segs[i];
    }
  }

  lemma SegmentIdsPrefix(segs: seq<Segment>, i: nat)
    requires i < |segs|
    ensures SegmentIds(segs[..i + 1]) == SegmentIds(segs[..i]) + {segs[i].body}
  {
    assert segs[..i + 1] == segs[..i] + [segs[i]];
    SegmentIdsAppend(segs[..i], segs[i]);
  }

  lemma FeatureIdsAppend(fs: seq<Feature>, f: Feature)
    ensures FeatureIds(fs + [f]) == FeatureIds(fs) + {f.body}
  {
    var t := fs + [f];
    assert t[|fs|] == f;
    forall id | id in FeatureIds(fs) ensures id in FeatureIds(t) {
      var i :| 0 <= i < |fs| && fs[i].body == id;
      assert t[i] == fs[i];
    }
  }

  lemma FeatureIdsPrefix(fs: seq<Feature>, i: nat)
    requires i < |fs|
    ensures FeatureIds(fs[..i + 1]) == FeatureIds(fs[..i]) + {fs[i].body}
  {
    assert fs[..i + 1] == fs[..i] + [fs[i]];
    FeatureIdsAppend(fs[..i], fs[i]);
  }

  /**
   * Appending a segment with a fresh ground body at the right edge of the
   * last one keeps the generator's invariant.
   */
  lemma PushSegment(segs: seq<Segment>, trampolines: seq<Feature>, obstacles: seq<Feature>,
                    bodies: map<BodyId, Label>, next: BodyId, heightAt: real -> real, x: real, height: real)
    requires Shaped(segs, heightAt) && SegmentIdsIncrease(segs)
    requires SegmentsRegistered(segs, bodies)
    requires FeaturesRegistered(trampolines, bodies, Trampoline)
    requires FeaturesRegistered(obstacles, bodies, Obstacle)
    requires forall id | id in bodies :: id < next
    requires segs != [] ==> x == Right(segs[|segs| - 1])
    requires height == heightAt(x)
    ensures var t := segs + [Segment(x, SegmentWidth, height, next)];
            var b := bodies[next := Ground];
            && Shaped(t, heightAt) && SegmentIdsIncrease(t)
            && SegmentsRegistered(t, b)
            && FeaturesRegistered(trampolines, b, Trampoline)
            && FeaturesRegistered(obstacles, b, Obstacle)
  {
    var t := segs + [Segment(x, SegmentWidth, height, next)];
    forall i | 0 <= i < |t| - 1
      ensures JoinedAt(t, i)
    {
      if i < |segs| - 1 {
        assert JoinedAt(segs, i);
      }
    }
  }

  /**
   * The state of the initial segment loop after `|segs|` rounds: a shaped row
   * starting at x = 0, its ground bodies registered over `base` in order from `next0`.
   */
  ghost predicate InitialRow(segs: seq<Segment>, bodies: map<BodyId, Label>, base: map<BodyId, Label>,
                             next0: BodyId, heightAt: real -> real)
  {
    && Shaped(segs, heightAt) && SegmentIdsIncrease(segs) && SegmentsRegistered(segs, bodies)
    && (segs != [] ==> segs[0].x == 0.0 && Right(segs[|segs| - 1]) == |segs| as real * SegmentWidth)
    && (segs != [] ==> segs[0].body == next0)
    && bodies == WithSegments(base, segs)
  }

  /** One round of the initial segment loop keeps `InitialRow`. */
  lemma InitialRowStep(segs: seq<Segment>, bodies: map<BodyId, Label>, base: map<BodyId, Label>,
                       next0: BodyId, heightAt: real -> real, after: seq<Segment>)
    requires InitialRow(segs, bodies, base, next0, heightAt)
    requires forall id | id in bodies :: id < next0 + |segs|
    requires var x := |segs| as real * SegmentWidth;
             after == segs + [Segment(x, SegmentWidth, heightAt(x), next0 + |segs|)]
    ensures InitialRow(after, bodies[next0 + |segs| := Ground], base, next0, heightAt)
  {
    var x := |segs| as real * SegmentWidth;
    var s := Segment(x, SegmentWidth, heightAt(x), next0 + |segs|);
    PushSegment(segs, [], [], bodies, next0 + |segs|, heightAt, x, heightAt(x));
    WithSegmentsAppend(base, segs, s);
    assert after[|after| - 1] == s;
    if segs != [] {
      assert after[0] == segs[0];
    }
  }

  /**
   * The state of an initial feature loop after `|fs|` rounds: the features sit
   * on the pattern, their bodies are registered over `base` in order from `next0`.
   */
  ghost predicate PatternRow(fs: seq<Feature>, segs: seq<Segment>, first: nat, stride: nat, lift: real, screenHeight: real,
                             bodies: map<BodyId, Label>, base: map<BodyId, Label>, next0: BodyId, kind: Label)
  {
    && OnPattern(fs, segs, first, stride, lift, screenHeight)
    && bodies == WithFeatures(base, fs, kind)
    && FeatureIdsIncrease(fs)
    && (fs != [] ==> fs[0].body == next0 && fs[|fs| - 1].body < next0 + |fs|)
  }

  /** One round of an initial feature loop keeps `PatternRow`. */
  lemma PatternRowStep(fs: seq<Feature>, segs: seq<Segment>, first: nat, stride: nat, lift: real, screenHeight: real,
                       bodies: map<BodyId, Label>, base: map<BodyId, Label>, next0: BodyId, kind: Label, after: seq<Feature>)
    requires PatternRow(fs, segs, first, stride, lift, screenHeight, bodies, base, next0, kind)
    requires first + stride * |fs| < |segs|
    requires var s := segs[first + stride * |fs|];
             after == fs + [Feature(s.x + SegmentWidth / 2.0, screenHeight - s.height - lift, next0 + |fs|)]
    ensures PatternRow(after, segs, first, stride, lift, screenHeight, bodies[next0 + |fs| := kind], base, next0, kind)
  {
    var f := after[|fs|];
    assert after == fs + [f];
    OnPatternAppend(fs, segs, first, stride, lift, screenHeight, f);
    WithFeaturesAppend(base, fs, f, kind);
    FeatureIdsIncreaseAppend(fs, f);
    if fs != [] {
      assert after[0] == fs[0];
    }
  }

  /** Sequence concatenation is associative; stated once so proofs need not unfold it. */
  lemma AppendAssociates<T>(a: seq<T>, b: seq<T>, c: seq<T>)
    ensures (a + b) + c == a + (b + c)
  {
  }

  /** The two halves of a concatenation, recovered by slicing. */
  lemma AppendSplits<T>(a: seq<T>, b: seq<T>)
    ensures (a + b)[..|a|] == a && (a + b)[|a|..] == b
  {
  }

  /** The world after registering the bodies of `fs`, in order, with label `kind`. */
  function WithFeatures(bodies: map<BodyId, Label>, fs: seq<Feature>, kind: Label): (m: map<BodyId, Label>)
  {
    if fs == [] then bodies
    else WithFeatures(bodies, fs[..|fs| - 1], kind)[fs[|fs| - 1].body := kind]
  }

  /** The world after registering the ground bodies of `segs`, in order. */
  function WithSegments(bodies: map<BodyId, Label>, segs: seq<Segment>): (m: map<BodyId, Label>)
  {
    if segs == [] then bodies
    else WithSegments(bodies, segs[..|segs| - 1])[segs[|segs| - 1].body := Ground]
  }

  /** Every body of `before` is still registered in `after`, with the same label. */
  ghost predicate Extends(before: map<BodyId, Label>, after: map<BodyId, Label>)
  {
    forall id | id in before :: id in after && after[id] == before[id]
  }

  lemma WithFeaturesAppend(bodies: map<BodyId, Label>, fs: seq<Feature>, f: Feature, kind: Label)
    ensures WithFeatures(bodies, fs + [f], kind) == WithFeatures(bodies, fs, kind)[f.body := kind]
  {
    assert (fs + [f])[..|fs|] == fs;
  }

  lemma WithFeaturesSingle(bodies: map<BodyId, Label>, f: Feature, kind: Label)
    ensures WithFeatures(bodies, [f], kind) == bodies[f.body := kind]
  {
    WithFeaturesAppend(bodies, [], f, kind);
  }

  lemma WithSegmentsSingle(bodies: map<BodyId, Label>, s: Segment)
    ensures WithSegments(bodies, [s]) == bodies[s.body := Ground]
  {
    WithSegmentsAppend(bodies, [], s);
  }

  lemma WithSegmentsAppend(bodies: map<BodyId, Label>, segs: seq<Segment>, s: Segment)
    ensures WithSegments(bodies, segs + [s]) == WithSegments(bodies, segs)[s.body := Ground]
  {
    assert (segs + [s])[..|segs|] == segs;
  }

  lemma ExtendsTransitive(a: map<BodyId, Label>, b: map<BodyId, Label>, c: map<BodyId, Label>)
    requires Extends(a, b) && Extends(b, c)
    ensures Extends(a, c)
  {
  }

  /**
   * Registering fresh features of one kind keeps every body already registered
   * and registers each new feature with that kind.
   */
  lemma FeaturesAdded(bodies: map<BodyId, Label>, segs: seq<Segment>, others: seq<Feature>, othersKind: Label,
                      fs: seq<Feature>, kind: Label)
    requires SegmentsRegistered(segs, bodies) && FeaturesRegistered(others, bodies, othersKind)
    requires forall k | 0 <= k < |fs| :: fs[k].body !in bodies
    ensures var after := WithFeatures(bodies, fs, kind);
            && Extends(bodies, after)
            && SegmentsRegistered(segs, after)
            && FeaturesRegistered(others, after, othersKind)
            && FeaturesRegistered(fs, after, kind)
  {
    WithFeaturesExtends(bodies, bodies, fs, kind);
    WithFeaturesRegisters(bodies, fs, kind);
  }

  lemma {:induction false} WithFeaturesRegisters(bodies: map<BodyId, Label>, fs: seq<Feature>, kind: Label)
    ensures FeaturesRegistered(fs, WithFeatures(bodies, fs, kind), kind)
  {
    if fs != [] {
      var n := |fs| - 1;
      WithFeaturesRegisters(bodies, fs[..n], kind);
      assert forall f | f in fs :: f in fs[..n] || f == fs[n];
    }
  }

  lemma {:induction false} WithFeaturesKeys(bodies: map<BodyId, Label>, fs: seq<Feature>, kind: Label)
    ensures WithFeatures(bodies, fs, kind).Keys == bodies.Keys + FeatureIds(fs)
  {
    if fs != [] {
      var n := |fs| - 1;
      WithFeaturesKeys(bodies, fs[..n], kind);
      FeatureIdsPrefix(fs, n);
      assert fs[..n + 1] == fs;
    }
  }

  /** Registering bodies that are not in `before` keeps every body of `before`. */
  lemma {:induction false} WithFeaturesExtends(before: map<BodyId, Label>, bodies: map<BodyId, Label>, fs: seq<Feature>, kind: Label)
    requires Extends(before, bodies)
    requires forall k | 0 <= k < |fs| :: fs[k].body !in before
    ensures Extends(before, WithFeatures(bodies, fs, kind))
  {
    if fs != [] {
      var n := |fs| - 1;
      WithFeaturesExtends(before, bodies, fs[..n], kind);
    }
  }

  lemma {:induction false} WithSegmentsKeys(bodies: map<BodyId, Label>, segs: seq<Segment>)
    ensures WithSegments(bodies, segs).Keys == bodies.Keys + SegmentIds(segs)
  {
    if segs != [] {
      var n := |segs| - 1;
      WithSegmentsKeys(bodies, segs[..n]);
      SegmentIdsPrefix(segs, n);
      assert segs[..n + 1] == segs;
    }
  }

  lemma {:induction false} WithSegmentsExtends(before: map<BodyId, Label>, bodies: map<BodyId, Label>, segs: seq<Segment>)
    requires Extends(before, bodies)
    requires forall k | 0 <= k < |segs| :: segs[k].body !in before
    ensures Extends(before, WithSegments(bodies, segs))
  {
    if segs != [] {
      var n := |segs| - 1;
      WithSegmentsExtends(before, bodies, segs[..n]);
    }
  }

  /** Registering a body outside `fs` commutes with registering the bodies of `fs`. */
  lemma {:induction false} WithFeaturesUpdate(bodies: map<BodyId, Label>, fs: seq<Feature>, kind: Label, id: BodyId, tag: Label)
    requires forall k | 0 <= k < |fs| :: fs[k].body != id
    ensures WithFeatures(bodies[id := tag], fs, kind) == WithFeatures(bodies, fs, kind)[id := tag]
  {
    if fs != [] {
      var n := |fs| - 1;
      WithFeaturesUpdate(bodies, fs[..n], kind, id, tag);
    }
  }

  /**
   * The world after registering, on top of `base`, the ground bodies of
   * `segs`, the trampoline bodies of `ts` and the obstacle bodies of `os`.
   */
  function Rebuilt(base: map<BodyId, Label>, segs: seq<Segment>, ts: seq<Feature>, os: seq<Feature>): (m: map<BodyId, Label>)
  {
    WithFeatures(WithFeatures(WithSegments(base, segs), ts, Trampoline), os, Obstacle)
  }

  predicate Within(lo: BodyId, hi: BodyId, id: BodyId)
  {
    lo <= id < hi
  }

  /**
   * Every body of the three lists was created at or after id `lo` and before
   * id `hi`. The triggers keep these facts from being instantiated for every
   * list element a proof mentions; a proof that needs one asks for it by
   * naming `Within`.
   */
  ghost predicate IdsWithin(lo: BodyId, hi: BodyId, segs: seq<Segment>, ts: seq<Feature>, os: seq<Feature>)
  {
    && (forall k {:trigger Within(lo, hi, segs[k].body)} | 0 <= k < |segs| :: Within(lo, hi, segs[k].body))
    && (forall k {:trigger Within(lo, hi, ts[k].body)} | 0 <= k < |ts| :: Within(lo, hi, ts[k].body))
    && (forall k {:trigger Within(lo, hi, os[k].body)} | 0 <= k < |os| :: Within(lo, hi, os[k].body))
  }

  /** One pass of the batch loop creates body `hi`, then possibly body `hi + 1`. */
  lemma IdsStep(lo: BodyId, hi: BodyId, segs: seq<Segment>, ts: seq<Feature>, os: seq<Feature>,
                s: Segment, pt: seq<Feature>, po: seq<Feature>)
    requires IdsWithin(lo, hi, segs, ts, os) && lo <= hi && s.body == hi
    requires forall k | 0 <= k < |pt| :: pt[k].body == hi + 1
    requires forall k | 0 <= k < |po| :: po[k].body == hi + 1
    ensures IdsWithin(lo, hi + 1 + |pt| + |po|, segs + [s], ts + pt, os + po)
  {
    var top := hi + 1 + |pt| + |po|;
    forall k | 0 <= k < |segs| ensures Within(lo, top, (segs + [s])[k].body) {
      assert Within(lo, hi, segs[k].body);
    }
    forall k | 0 <= k < |ts| ensures Within(lo, top, (ts + pt)[k].body) {
      assert Within(lo, hi, ts[k].body);
    }
    forall k | 0 <= k < |os| ensures Within(lo, top, (os + po)[k].body) {
      assert Within(lo, hi, os[k].body);
    }
  }

  /**
   * Rebuilding on top of `base` with bodies newer than every body of `base`
   * keeps every body of `base` with its label and adds exactly the listed bodies.
   */
  lemma RebuiltKeeps(base: map<BodyId, Label>, segs: seq<Segment>, ts: seq<Feature>, os: seq<Feature>, lo: BodyId, hi: BodyId)
    requires forall id | id in base :: id < lo
    requires IdsWithin(lo, hi, segs, ts, os)
    ensures Extends(base, Rebuilt(base, segs, ts, os))
    ensures Rebuilt(base, segs, ts, os).Keys == base.Keys + SegmentIds(segs) + FeatureIds(ts) + FeatureIds(os)
  {
    forall k | 0 <= k < |segs| ensures segs[k].body !in base {
      assert Within(lo, hi, segs[k].body);
    }
    forall k | 0 <= k < |ts| ensures ts[k].body !in base {
      assert Within(lo, hi, ts[k].body);
    }
    forall k | 0 <= k < |os| ensures os[k].body !in base {
      assert Within(lo, hi, os[k].body);
    }
    var laid := WithSegments(base, segs);
    var withPads := WithFeatures(laid, ts, Trampoline);
    WithSegmentsExtends(base, base, segs);
    WithFeaturesExtends(base, laid, ts, Trampoline);
    WithFeaturesExtends(base, withPads, os, Obstacle);
    WithSegmentsKeys(base, segs);
    WithFeaturesKeys(laid, ts, Trampoline);
    WithFeaturesKeys(withPads, os, Obstacle);
  }

  /**
   * One pass of the batch loop, seen on the rebuilt world: a segment with body
   * `s.body`, then at most one feature with the next body.
   */
  lemma RebuiltStep(base: map<BodyId, Label>, segs: seq<Segment>, ts: seq<Feature>, os: seq<Feature>,
                    lo: BodyId, s: Segment, pt: seq<Feature>, po: seq<Feature>)
    requires IdsWithin(lo, s.body, segs, ts, os)
    requires |pt| + |po| <= 1
    requires forall k | 0 <= k < |pt| :: pt[k].body == s.body + 1
    requires forall k | 0 <= k < |po| :: po[k].body == s.body + 1
    ensures Rebuilt(base, segs + [s], ts + pt, os + po) == Rebuilt(Rebuilt(base, segs, ts, os), [s], pt, po)
  {
    var r := Rebuilt(base, segs, ts, os);
    forall k | 0 <= k < |ts| ensures ts[k].body != s.body {
      assert Within(lo, s.body, ts[k].body);
    }
    forall k | 0 <= k < |os| ensures os[k].body != s.body && os[k].body != s.body + 1 {
      assert Within(lo, s.body, os[k].body);
    }
    RebuiltAddSegment(base, segs, ts, os, s);
    WithSegmentsSingle(r, s);
    if pt != [] {
      assert pt == [pt[0]] && os + po == os;
      RebuiltAddTrampoline(base, segs + [s], ts, os, pt[0]);
      WithFeaturesSingle(r[s.body := Ground], pt[0], Trampoline);
    } else if po != [] {
      assert po == [po[0]] && ts + pt == ts;
      RebuiltAddObstacle(base, segs + [s], ts, os, po[0]);
      WithFeaturesSingle(r[s.body := Ground], po[0], Obstacle);
    } else {
      assert ts + pt == ts && os + po == os;
    }
  }

  /** Laying one more segment adds its ground body to the rebuilt world. */
  lemma RebuiltAddSegment(base: map<BodyId, Label>, segs: seq<Segment>, ts: seq<Feature>, os: seq<Feature>, s: Segment)
    requires forall k | 0 <= k < |ts| :: ts[k].body != s.body
    requires forall k | 0 <= k < |os| :: os[k].body != s.body
    ensures Rebuilt(base, segs + [s], ts, os) == Rebuilt(base, segs, ts, os)[s.body := Ground]
  {
    WithSegmentsAppend(base, segs, s);
    WithFeaturesUpdate(WithSegments(base, segs), ts, Trampoline, s.body, Ground);
    WithFeaturesUpdate(WithFeatures(WithSegments(base, segs), ts, Trampoline), os, Obstacle, s.body, Ground);
  }

  /** Placing one more trampoline adds its body to the rebuilt world. */
  lemma RebuiltAddTrampoline(base: map<BodyId, Label>, segs: seq<Segment>, ts: seq<Feature>, os: seq<Feature>, t: Feature)
    requires forall k | 0 <= k < |os| :: os[k].body != t.body
    ensures Rebuilt(base, segs, ts + [t], os) == Rebuilt(base, segs, ts, os)[t.body := Trampoline]
  {
    WithFeaturesAppend(WithSegments(base, segs), ts, t, Trampoline);
    WithFeaturesUpdate(WithFeatures(WithSegments(base, segs), ts, Trampoline), os, Obstacle, t.body, Trampoline);
  }

  /** Placing one more obstacle adds its body to the rebuilt world. */
  lemma RebuiltAddObstacle(base: map<BodyId, Label>, segs: seq<Segment>, ts: seq<Feature>, os: seq<Feature>, o: Feature)
    ensures Rebuilt(base, segs, ts, os + [o]) == Rebuilt(base, segs, ts, os)[o.body := Obstacle]
  {
    WithFeaturesAppend(WithFeatures(WithSegments(base, segs), ts, Trampoline), os, o, Obstacle);
  }

  /** Removing three sets of ids in turn removes their union. */
  lemma RemoveInTurn(bodies: map<BodyId, Label>, a: set<BodyId>, b: set<BodyId>, c: set<BodyId>)
    ensures bodies - a - b - c == bodies - (a + b + c)
  {
  }

  lemma BehindIdsPrefix(fs: seq<Feature>, cutoff: real, i: nat)
    requires i < |fs|
    ensures BehindIds(fs[..i + 1], cutoff)
         == BehindIds(fs[..i], cutoff) + (if fs[i].x < cutoff then {fs[i].body} else {})
  {
    var p := fs[..i + 1];
    assert p[i] == fs[i];
    forall id | id in BehindIds(fs[..i], cutoff) ensures id in BehindIds(p, cutoff) {
      var k :| 0 <= k < i && fs[..i][k].x < cutoff && fs[..i][k].body == id;
      assert p[k] == fs[k];
    }
  }

  // ---------------------------------------------------------------------
  // A batch, as a value

  /** The segments and features laid by the first passes of the batch loop. */
  datatype Laid = Laid(segs: seq<Segment>, ts: seq<Feature>, os: seq<Feature>)

  /** The number of bodies created for what has been laid. */
  function Created(l: Laid): (n: nat)
  {
    |l.segs| + |l.ts| + |l.os|
  }

  /** `b` laid after `a`: each list of `b` follows the same list of `a`. */
  function Join(a: Laid, b: Laid): (j: Laid)
    ensures Created(j) == Created(a) + Created(b)
  {
    Laid(a.segs + b.segs, a.ts + b.ts, a.os + b.os)
  }

  lemma JoinAssociates(a: Laid, b: Laid, c: Laid)
    ensures Join(Join(a, b), c) == Join(a, Join(b, c))
  {
    AppendAssociates(a.segs, b.segs, c.segs);
    AppendAssociates(a.ts, b.ts, c.ts);
    AppendAssociates(a.os, b.os, c.os);
  }

  /**
   * What one pass of the batch loop lays: segment `s`, then the trampoline or
   * the obstacle the draws `r` call for, whose body is created right after the segment's.
   */
  function Pass(s: Segment, r: Roll, screenHeight: real): (p: Laid)
    ensures p.segs == [s] && |p.ts| + |p.os| <= 1
    ensures forall k | 0 <= k < |p.ts| :: p.ts[k].body == s.body + 1
    ensures forall k | 0 <= k < |p.os| :: p.os[k].body == s.body + 1
  {
    Laid([s],
         Placed(s, r, PlaceTrampoline, TrampolineLift, screenHeight, s.body + 1),
         Placed(s, r, PlaceObstacle, ObstacleLift, screenHeight, s.body + 1))
  }

  /** One more pass of the batch loop after `l`. */
  function Lay(l: Laid, s: Segment, r: Roll, screenHeight: real): (after: Laid)
    ensures Created(after) <= Created(l) + 2
  {
    Join(l, Pass(s, r, screenHeight))
  }

  /** The world rebuilt with one more pass is the world rebuilt so far with that pass's bodies registered on top. */
  lemma RebuiltLay(base: map<BodyId, Label>, l: Laid, s: Segment, r: Roll, screenHeight: real, lo: BodyId)
    requires IdsWithin(lo, s.body, l.segs, l.ts, l.os)
    ensures var after := Lay(l, s, r, screenHeight);
            var p := Pass(s, r, screenHeight);
            Rebuilt(base, after.segs, after.ts, after.os) == Rebuilt(Rebuilt(base, l.segs, l.ts, l.os), p.segs, p.ts, p.os)
  {
    var p := Pass(s, r, screenHeight);
    RebuiltStep(base, l.segs, l.ts, l.os, lo, s, p.ts, p.os);
  }

  /** The k-th segment of a batch that starts at `startX`, with body `id`. */
  function BatchSegment(startX: real, heightAt: real -> real, k: nat, id: BodyId): (s: Segment)
  {
    var x := startX + k as real * SegmentWidth;
    Segment(x, SegmentWidth, heightAt(x), id)
  }

  /** One pass keeps the laid spots equal to the spots the draws plan. */
  lemma LaySpots(l: Laid, s: Segment, rolls: seq<Roll>, screenHeight: real, after: Laid)
    requires |l.segs| < |rolls| && after == Lay(l, s, rolls[|l.segs|], screenHeight)
    requires Spots(l.ts) == Planned(l.segs, rolls, PlaceTrampoline, TrampolineLift, screenHeight)
    requires Spots(l.os) == Planned(l.segs, rolls, PlaceObstacle, ObstacleLift, screenHeight)
    ensures && Spots(after.ts) == Planned(after.segs, rolls, PlaceTrampoline, TrampolineLift, screenHeight)
            && Spots(after.os) == Planned(after.segs, rolls, PlaceObstacle, ObstacleLift, screenHeight)
  {
    PlannedStep(l.segs, l.ts, rolls, PlaceTrampoline, TrampolineLift, screenHeight, s, s.body + 1);
    PlannedStep(l.segs, l.os, rolls, PlaceObstacle, ObstacleLift, screenHeight, s, s.body + 1);
  }

  /** One pass numbers its bodies right after those already laid, in creation order. */
  lemma LayIds(l: Laid, s: Segment, r: Roll, screenHeight: real, lo: BodyId, after: Laid)
    requires after == Lay(l, s, r, screenHeight)
    requires IdsWithin(lo, lo + Created(l), l.segs, l.ts, l.os)
    requires SegmentIdsIncrease(l.segs) && FeatureIdsIncrease(l.ts) && FeatureIdsIncrease(l.os)
    requires s.body == lo + Created(l)
    ensures && IdsWithin(lo, lo + Created(after), after.segs, after.ts, after.os)
            && SegmentIdsIncrease(after.segs) && FeatureIdsIncrease(after.ts) && FeatureIdsIncrease(after.os)
  {
    var hi := lo + Created(l);
    var p := Pass(s, r, screenHeight);
    var pt, po := p.ts, p.os;
    assert after.segs == l.segs + [s] && after.ts == l.ts + pt && after.os == l.os + po;
    IdsStep(lo, hi, l.segs, l.ts, l.os, s, pt, po);
    if l.segs != [] {
      assert Within(lo, hi, l.segs[|l.segs| - 1].body);
    }
    SegmentIdsIncreaseAppend(l.segs, s);
    if pt != [] {
      if l.ts != [] {
        assert Within(lo, hi, l.ts[|l.ts| - 1].body);
      }
      assert pt == [pt[0]];
      FeatureIdsIncreaseAppend(l.ts, pt[0]);
    }
    if po != [] {
      if l.os != [] {
        assert Within(lo, hi, l.os[|l.os| - 1].body);
      }
      assert po == [po[0]];
      FeatureIdsIncreaseAppend(l.os, po[0]);
    }
  }

  /**
   * A segment with body `hi`, then at most one feature with body `hi + 1`,
   * registered on top of `r`, leave every list registered.
   */
  lemma RegisterStep(segs: seq<Segment>, ts: seq<Feature>, os: seq<Feature>, r: map<BodyId, Label>, hi: BodyId,
                     s: Segment, pt: seq<Feature>, po: seq<Feature>)
    requires SegmentsRegistered(segs, r) && FeaturesRegistered(ts, r, Trampoline) && FeaturesRegistered(os, r, Obstacle)
    requires forall id | id in r :: id < hi
    requires s.body == hi && |pt| + |po| <= 1
    requires forall k | 0 <= k < |pt| :: pt[k].body == hi + 1
    requires forall k | 0 <= k < |po| :: po[k].body == hi + 1
    ensures var after := Rebuilt(r, [s], pt, po);
            && SegmentsRegistered(segs + [s], after)
            && FeaturesRegistered(ts + pt, after, Trampoline)
            && FeaturesRegistered(os + po, after, Obstacle)
            && forall id | id in after :: id < hi + 1 + |pt| + |po|
  {
    var r1 := r[hi := Ground];
    WithSegmentsSingle(r, s);
    if pt != [] {
      assert pt == [pt[0]] && po == [];
      WithFeaturesSingle(r1, pt[0], Trampoline);
    } else if po != [] {
      assert po == [po[0]];
      WithFeaturesSingle(r1, po[0], Obstacle);
    }
  }

  /** One pass, registered on top of the world rebuilt so far, keeps every laid body registered. */
  lemma LayRegisters(base: map<BodyId, Label>, l: Laid, s: Segment, r: Roll, screenHeight: real, lo: BodyId, after: Laid)
    requires after == Lay(l, s, r, screenHeight)
    requires IdsWithin(lo, lo + Created(l), l.segs, l.ts, l.os) && s.body == lo + Created(l)
    requires var w := Rebuilt(base, l.segs, l.ts, l.os);
             && SegmentsRegistered(l.segs, w) && FeaturesRegistered(l.ts, w, Trampoline) && FeaturesRegistered(l.os, w, Obstacle)
             && forall id | id in w :: id < lo + Created(l)
    ensures var w := Rebuilt(base, after.segs, after.ts, after.os);
            && SegmentsRegistered(after.segs, w)
            && FeaturesRegistered(after.ts, w, Trampoline)
            && FeaturesRegistered(after.os, w, Obstacle)
            && forall id | id in w :: id < lo + Created(after)
  {
    var hi := lo + Created(l);
    var p := Pass(s, r, screenHeight);
    var pt, po := p.ts, p.os;
    assert after.segs == l.segs + [s] && after.ts == l.ts + pt && after.os == l.os + po;
    RebuiltStep(base, l.segs, l.ts, l.os, lo, s, pt, po);
    RegisterStep(l.segs, l.ts, l.os, Rebuilt(base, l.segs, l.ts, l.os), hi, s, pt, po);
  }

  /** Standard segments laid at a stride of 200 from `startX` are contiguous and follow the profile. */
  lemma StrideShaped(segs: seq<Segment>, startX: real, heightAt: real -> real)
    requires forall k | 0 <= k < |segs| :: segs[k] == BatchSegment(startX, heightAt, k, segs[k].body)
    ensures Shaped(segs, heightAt)
  {
    forall k | 0 <= k < |segs| - 1 ensures JoinedAt(segs, k) {
      assert segs[k] == BatchSegment(startX, heightAt, k, segs[k].body);
      assert segs[k + 1] == BatchSegment(startX, heightAt, k + 1, segs[k + 1].body);
    }
  }

  /** Joining two shaped runs edge to edge gives a shaped run. */
  lemma ShapedConcat(a: seq<Segment>, b: seq<Segment>, heightAt: real -> real)
    requires Shaped(a, heightAt) && Shaped(b, heightAt)
    requires a != [] && b != [] ==> Right(a[|a| - 1]) == b[0].x
    ensures Shaped(a + b, heightAt)
  {
    var t := a + b;
    forall k | 0 <= k < |t| - 1 ensures JoinedAt(t, k) {
      if k < |a| - 1 {
        assert JoinedAt(a, k);
      } else if k >= |a| {
        assert JoinedAt(b, k - |a|);
      }
    }
  }

  /**
   * `l` is what the first |l.segs| passes of the batch loop lay when the batch
   * starts at `startX` on top of the world `base` and the next body id is `lo`:
   * segment k sits at startX + 200 k, the features are where the draws plan
   * them, the bodies take the ids from `lo` up in creation order, and each
   * carries the label of its list in the world rebuilt on `base`.
   */
  ghost predicate LaidOn(l: Laid, base: map<BodyId, Label>, startX: real, heightAt: real -> real,
                         rolls: seq<Roll>, screenHeight: real, lo: BodyId)
  {
    var w := Rebuilt(base, l.segs, l.ts, l.os);
    && |l.segs| <= |rolls|
    && (forall k | 0 <= k < |l.segs| :: l.segs[k] == BatchSegment(startX, heightAt, k, l.segs[k].body))
    && Spots(l.ts) == Planned(l.segs, rolls, PlaceTrampoline, TrampolineLift, screenHeight)
    && Spots(l.os) == Planned(l.segs, rolls, PlaceObstacle, ObstacleLift, screenHeight)
    && IdsWithin(lo, lo + Created(l), l.segs, l.ts, l.os)
    && SegmentIdsIncrease(l.segs) && FeatureIdsIncrease(l.ts) && FeatureIdsIncrease(l.os)
    && SegmentsRegistered(l.segs, w) && FeaturesRegistered(l.ts, w, Trampoline) && FeaturesRegistered(l.os, w, Obstacle)
    && forall id | id in w :: id < lo + Created(l)
  }

  /** Nothing laid yet, on a world whose ids all precede `lo`. */
  lemma LaidOnStart(base: map<BodyId, Label>, startX: real, heightAt: real -> real, rolls: seq<Roll>, screenHeight: real, lo: BodyId)
    requires forall id | id in base :: id < lo
    ensures LaidOn(Laid([], [], []), base, startX, heightAt, rolls, screenHeight, lo)
  {
    assert Rebuilt(base, [], [], []) == base;
  }

  /** One more pass of the batch loop keeps `LaidOn`. */
  lemma LayKeeps(l: Laid, base: map<BodyId, Label>, startX: real, heightAt: real -> real,
                 rolls: seq<Roll>, screenHeight: real, lo: BodyId, s: Segment, after: Laid)
    requires LaidOn(l, base, startX, heightAt, rolls, screenHeight, lo) && |l.segs| < |rolls|
    requires s == BatchSegment(startX, heightAt, |l.segs|, lo + Created(l))
    requires after == Join(l, Pass(s, rolls[|l.segs|], screenHeight))
    ensures LaidOn(after, base, startX, heightAt, rolls, screenHeight, lo)
  {
    LaySpots(l, s, rolls, screenHeight, after);
    LayIds(l, s, rolls[|l.segs|], screenHeight, lo, after);
    LayRegisters(base, l, s, rolls[|l.segs|], screenHeight, lo, after);
    LaySegmentAt(l.segs, startX, heightAt, s, after.segs);
  }

  /** Appending the next batch segment keeps segment k at startX + 200 k. */
  lemma LaySegmentAt(segs: seq<Segment>, startX: real, heightAt: real -> real, s: Segment, after: seq<Segment>)
    requires forall k | 0 <= k < |segs| :: segs[k] == BatchSegment(startX, heightAt, k, segs[k].body)
    requires s == BatchSegment(startX, heightAt, |segs|, s.body) && after == segs + [s]
    ensures forall k | 0 <= k < |after| :: after[k] == BatchSegment(startX, heightAt, k, after[k].body)
  {
    forall k | 0 <= k < |after|
      ensures after[k] == BatchSegment(startX, heightAt, k, after[k].body)
    {
      if k < |segs| {
        assert after[k] == segs[k];
      }
    }
  }

  lemma SegmentsRegisteredConcat(a: seq<Segment>, b: seq<Segment>, bodies: map<BodyId, Label>)
    requires SegmentsRegistered(a, bodies) && SegmentsRegistered(b, bodies)
    ensures SegmentsRegistered(a + b, bodies)
  {
    forall k | |a| <= k < |a + b| ensures (a + b)[k] == b[k - |a|] {
    }
  }

  lemma FeaturesRegisteredConcat(a: seq<Feature>, b: seq<Feature>, bodies: map<BodyId, Label>, kind: Label)
    requires FeaturesRegistered(a, bodies, kind) && FeaturesRegistered(b, bodies, kind)
    ensures FeaturesRegistered(a + b, bodies, kind)
  {
    forall k | |a| <= k < |a + b| ensures (a + b)[k] == b[k - |a|] {
    }
  }

  /** Registrations survive any change that keeps every registered body and its label. */
  lemma RegisteredExtends(segs: seq<Segment>, ts: seq<Feature>, os: seq<Feature>,
                          before: map<BodyId, Label>, after: map<BodyId, Label>)
    requires Extends(before, after)
    requires SegmentsRegistered(segs, before) && FeaturesRegistered(ts, before, Trampoline) && FeaturesRegistered(os, before, Obstacle)
    ensures SegmentsRegistered(segs, after) && FeaturesRegistered(ts, after, Trampoline) && FeaturesRegistered(os, after, Obstacle)
  {
  }

  /** Ids increase along a list of older bodies followed by a list of newer ones. */
  lemma SegmentIdsIncreaseConcat(a: seq<Segment>, b: seq<Segment>, lo: BodyId, hi: BodyId)
    requires SegmentIdsIncrease(a) && SegmentIdsIncrease(b)
    requires forall k | 0 <= k < |a| :: a[k].body < lo
    requires IdsWithin(lo, hi, b, [], [])
    ensures SegmentIdsIncrease(a + b)
  {
    var t := a + b;
    forall i, j | 0 <= i < j < |t| ensures Older(t[i].body, t[j].body) {
      if j < |a| {
        assert Older(a[i].body, a[j].body);
      } else if i >= |a| {
        assert Older(b[i - |a|].body, b[j - |a|].body);
      } else {
        assert Within(lo, hi, b[j - |a|].body);
      }
    }
  }

  lemma FeatureIdsIncreaseConcat(a: seq<Feature>, b: seq<Feature>, lo: BodyId, hi: BodyId)
    requires FeatureIdsIncrease(a) && FeatureIdsIncrease(b)
    requires forall k | 0 <= k < |a| :: a[k].body < lo
    requires IdsWithin(lo, hi, [], b, [])
    ensures FeatureIdsIncrease(a + b)
  {
    var t := a + b;
    forall i, j | 0 <= i < j < |t| ensures Older(t[i].body, t[j].body) {
      if j < |a| {
        assert Older(a[i].body, a[j].body);
      } else if i >= |a| {
        assert Older(b[i - |a|].body, b[j - |a|].body);
      } else {
        assert Within(lo, hi, b[j - |a|].body);
      }
    }
  }

  /**
   * Appending a laid batch to a generator state that satisfies the
   * generator's invariant, on top of the world of that state, gives a state
   * that satisfies it again.
   */
  lemma BatchKeepsInvariant(segs: seq<Segment>, ts: seq<Feature>, os: seq<Feature>, base: map<BodyId, Label>,
                            lo: BodyId, heightAt: real -> real, rolls: seq<Roll>, screenHeight: real, l: Laid)
    requires Shaped(segs, heightAt) && segs != [] && l.segs != []
    requires SegmentsRegistered(segs, base) && FeaturesRegistered(ts, base, Trampoline) && FeaturesRegistered(os, base, Obstacle)
    requires SegmentIdsIncrease(segs) && FeatureIdsIncrease(ts) && FeatureIdsIncrease(os)
    requires forall id | id in base :: id < lo
    requires LaidOn(l, base, Right(segs[|segs| - 1]), heightAt, rolls, screenHeight, lo)
    ensures var r := Rebuilt(base, l.segs, l.ts, l.os);
            && Shaped(segs + l.segs, heightAt)
            && SegmentsRegistered(segs + l.segs, r)
            && FeaturesRegistered(ts + l.ts, r, Trampoline)
            && FeaturesRegistered(os + l.os, r, Obstacle)
            && SegmentIdsIncrease(segs + l.segs) && FeatureIdsIncrease(ts + l.ts) && FeatureIdsIncrease(os + l.os)
  {
    var startX := Right(segs[|segs| - 1]);
    var r := Rebuilt(base, l.segs, l.ts, l.os);
    var hi := lo + Created(l);
    StrideShaped(l.segs, startX, heightAt);
    assert l.segs[0] == BatchSegment(startX, heightAt, 0, l.segs[0].body);
    ShapedConcat(segs, l.segs, heightAt);
    RebuiltKeeps(base, l.segs, l.ts, l.os, lo, hi);
    RegisteredExtends(segs, ts, os, base, r);
    SegmentsRegisteredConcat(segs, l.segs, r);
    FeaturesRegisteredConcat(ts, l.ts, r, Trampoline);
    FeaturesRegisteredConcat(os, l.os, r, Obstacle);
    assert IdsWithin(lo, hi, l.segs, [], []) && IdsWithin(lo, hi, [], l.ts, []) && IdsWithin(lo, hi, [], [], l.os);
    forall k | 0 <= k < |segs| ensures segs[k].body < lo {
    }
    forall k | 0 <= k < |ts| ensures ts[k].body < lo {
    }
    forall k | 0 <= k < |os| ensures os[k].body < lo {
    }
    SegmentIdsIncreaseConcat(segs, l.segs, lo, hi);
    FeatureIdsIncreaseConcat(ts, l.ts, lo, hi);
    FeatureIdsIncreaseConcat(os, l.os, lo, hi);
  }

  // ---------------------------------------------------------------------
  // Cleanup, as values

  /** Scanning retired segments from the left stops exactly at `n` when the first `n` are behind and the next is not. */
  lemma {:induction false} RetiredAt(segs: seq<Segment>, cutoff: real, n: nat)
    requires n <= |segs|
    requires forall k | 0 <= k < n :: Right(segs[k]) < cutoff
    requires n == |segs| || cutoff <= Right(segs[n])
    ensures Retired(segs, cutoff) == n
  {
    if n > 0 {
      var t := segs[1..];
      forall k | 0 <= k < n - 1 ensures Right(t[k]) < cutoff {
        assert t[k] == segs[k + 1];
      }
      if n < |segs| {
        assert t[n - 1] == segs[n];
      }
      RetiredAt(t, cutoff, n - 1);
    } else if |segs| > 0 {
      assert cutoff <= Right(segs[0]);
    }
  }

  /** A feature kept by the cleanup is at or past the cutoff; one before it is gone. */
  lemma {:induction false} KeepAheadExactly(fs: seq<Feature>, cutoff: real, f: Feature)
    requires f in fs
    ensures f in KeepAhead(fs, cutoff) <==> cutoff <= f.x
  {
    if cutoff <= f.x {
      KeepAheadComplete(fs, cutoff, f);
    }
  }

  lemma KeepAheadPrefix(fs: seq<Feature>, cutoff: real, i: nat)
    requires i < |fs|
    ensures KeepAhead(fs[..i + 1], cutoff) == KeepAhead(fs[..i], cutoff) + (if cutoff <= fs[i].x then [fs[i]] else [])
  {
    assert fs[..i + 1][..i] == fs[..i];
  }

  /**
   * Removing the features of `fs` that lie before the cutoff keeps the
   * segments, the kept features of `fs` and the features of `gs` registered.
   */
  lemma FilterKeepsRegistered(segs: seq<Segment>, fs: seq<Feature>, kind: Label, gs: seq<Feature>, gkind: Label,
                              bodies: map<BodyId, Label>, cutoff: real)
    requires kind != Ground && kind != gkind
    requires SegmentsRegistered(segs, bodies) && FeaturesRegistered(fs, bodies, kind) && FeaturesRegistered(gs, bodies, gkind)
    requires FeatureIdsIncrease(fs)
    ensures var after := bodies - BehindIds(fs, cutoff);
            && SegmentsRegistered(segs, after)
            && FeaturesRegistered(KeepAhead(fs, cutoff), after, kind)
            && FeaturesRegistered(gs, after, gkind)
  {
    var gone := BehindIds(fs, cutoff);
    forall k | 0 <= k < |segs| ensures segs[k].body !in gone {
      forall q | 0 <= q < |fs| ensures fs[q].body != segs[k].body {
        assert bodies[fs[q].body] == kind;
      }
    }
    forall k | 0 <= k < |gs| ensures gs[k].body !in gone {
      forall q | 0 <= q < |fs| ensures fs[q].body != gs[k].body {
        assert bodies[fs[q].body] == kind;
      }
    }
    var kept := KeepAhead(fs, cutoff);
    forall k | 0 <= k < |kept| ensures kept[k].body in bodies && bodies[kept[k].body] == kind && kept[k].body !in gone {
      var p :| 0 <= p < |fs| && fs[p] == kept[k];
      forall q | 0 <= q < |fs| && fs[q].x < cutoff ensures fs[q].body != fs[p].body {
        if q < p {
          assert Older(fs[q].body, fs[p].body);
        } else {
          assert Older(fs[p].body, fs[q].body);
        }
      }
    }
  }

  /** Removing the first `n` segments' bodies keeps the remaining segments and all features registered. */
  lemma ShiftKeepsRegistered(segs: seq<Segment>, ts: seq<Feature>, os: seq<Feature>, bodies: map<BodyId, Label>, n: nat)
    requires n <= |segs|
    requires SegmentsRegistered(segs, bodies) && FeaturesRegistered(ts, bodies, Trampoline) && FeaturesRegistered(os, bodies, Obstacle)
    requires SegmentIdsIncrease(segs)
    ensures var after := bodies - SegmentIds(segs[..n]);
            && SegmentsRegistered(segs[n..], after)
            && FeaturesRegistered(ts, after, Trampoline)
            && FeaturesRegistered(os, after, Obstacle)
            && SegmentIdsIncrease(segs[n..])
  {
    var gone := SegmentIds(segs[..n]);
    var t := segs[n..];
    forall k | 0 <= k < |t| ensures t[k] == segs[n + k] && t[k].body !in gone {
      forall q | 0 <= q < n ensures segs[..n][q].body != segs[n + k].body {
        assert segs[..n][q] == segs[q];
        assert Older(segs[q].body, segs[n + k].body);
      }
    }
    forall k | 0 <= k < |ts| ensures ts[k].body !in gone {
      forall q | 0 <= q < n ensures segs[..n][q].body != ts[k].body {
        assert segs[..n][q] == segs[q];
      }
    }
    forall k | 0 <= k < |os| ensures os[k].body !in gone {
      forall q | 0 <= q < n ensures segs[..n][q].body != os[k].body {
        assert segs[..n][q] == segs[q];
      }
    }
    forall i, j | 0 <= i < j < |t| ensures Older(t[i].body, t[j].body) {
      assert Older(segs[n + i].body, segs[n + j].body);
    }
  }

  /**
   * Every body of `before` outside `trackedBefore` is still in `after`, with
   * the same label, and is outside `trackedAfter`: the generator neither
   * touches nor adopts bodies it does not own, such as the cow's.
   */
  ghost predicate Untouched(before: map<BodyId, Label>, trackedBefore: set<BodyId>,
                            after: map<BodyId, Label>, trackedAfter: set<BodyId>)
  {
    forall id | id in before && id !in trackedBefore :: id !in trackedAfter && id in after && after[id] == before[id]
  }

  lemma UntouchedTransitive(a: map<BodyId, Label>, ta: set<BodyId>, b: map<BodyId, Label>, tb: set<BodyId>,
                            c: map<BodyId, Label>, tc: set<BodyId>)
    requires Untouched(a, ta, b, tb) && Untouched(b, tb, c, tc)
    ensures Untouched(a, ta, c, tc)
  {
  }

  /** Appending a batch with new ids registers only its own bodies and adopts no older body. */
  lemma BatchUntouched(segs: seq<Segment>, ts: seq<Feature>, os: seq<Feature>, base: map<BodyId, Label>,
                       lo: BodyId, hi: BodyId, l: Laid)
    requires forall id | id in base :: id < lo
    requires IdsWithin(lo, hi, l.segs, l.ts, l.os)
    ensures Untouched(base, SegmentIds(segs) + FeatureIds(ts) + FeatureIds(os), Rebuilt(base, l.segs, l.ts, l.os),
                      SegmentIds(segs + l.segs) + FeatureIds(ts + l.ts) + FeatureIds(os + l.os))
  {
    RebuiltKeeps(base, l.segs, l.ts, l.os, lo, hi);
    forall k | 0 <= k < |l.segs| ensures lo <= l.segs[k].body {
      assert Within(lo, hi, l.segs[k].body);
    }
    forall k | 0 <= k < |l.ts| ensures lo <= l.ts[k].body {
      assert Within(lo, hi, l.ts[k].body);
    }
    forall k | 0 <= k < |l.os| ensures lo <= l.os[k].body {
      assert Within(lo, hi, l.os[k].body);
    }
    SegmentIdsConcat(segs, l.segs);
    FeatureIdsConcat(ts, l.ts);
    FeatureIdsConcat(os, l.os);
  }

  lemma SegmentIdsConcat(a: seq<Segment>, b: seq<Segment>)
    ensures SegmentIds(a + b) == SegmentIds(a) + SegmentIds(b)
  {
    var t := a + b;
    forall id | id in SegmentIds(t) ensures id in SegmentIds(a) + SegmentIds(b) {
      var k :| 0 <= k < |t| && t[k].body == id;
      if k >= |a| {
        assert b[k - |a|] == t[k];
      }
    }
    forall id | id in SegmentIds(a) ensures id in SegmentIds(t) {
      var k :| 0 <= k < |a| && a[k].body == id;
      assert t[k] == a[k];
    }
    forall id | id in SegmentIds(b) ensures id in SegmentIds(t) {
      var k :| 0 <= k < |b| && b[k].body == id;
      assert t[|a| + k] == b[k];
    }
  }

  lemma FeatureIdsConcat(a: seq<Feature>, b: seq<Feature>)
    ensures FeatureIds(a + b) == FeatureIds(a) + FeatureIds(b)
  {
    var t := a + b;
    forall id | id in FeatureIds(t) ensures id in FeatureIds(a) + FeatureIds(b) {
      var k :| 0 <= k < |t| && t[k].body == id;
      if k >= |a| {
        assert b[k - |a|] == t[k];
      }
    }
    forall id | id in FeatureIds(a) ensures id in FeatureIds(t) {
      var k :| 0 <= k < |a| && a[k].body == id;
      assert t[k] == a[k];
    }
    forall id | id in FeatureIds(b) ensures id in FeatureIds(t) {
      var k :| 0 <= k < |b| && b[k].body == id;
      assert t[|a| + k] == b[k];
    }
  }

  /**
   * The cleanup keeps the generator's invariant, leaves every body it did not
   * track alone, and leaves nothing behind the cutoff.
   */
  lemma CleanupKeeps(segs: seq<Segment>, ts: seq<Feature>, os: seq<Feature>, bodies: map<BodyId, Label>,
                     heightAt: real -> real, cutoff: real)
    requires Shaped(segs, heightAt) && SegmentIdsIncrease(segs) && FeatureIdsIncrease(ts) && FeatureIdsIncrease(os)
    requires SegmentsRegistered(segs, bodies) && FeaturesRegistered(ts, bodies, Trampoline) && FeaturesRegistered(os, bodies, Obstacle)
    ensures var n := Retired(segs, cutoff);
            var segs', ts', os' := segs[n..], KeepAhead(ts, cutoff), KeepAhead(os, cutoff);
            var bodies' := bodies - SegmentIds(segs[..n]) - BehindIds(ts, cutoff) - BehindIds(os, cutoff);
            && Shaped(segs', heightAt) && SegmentIdsIncrease(segs') && FeatureIdsIncrease(ts') && FeatureIdsIncrease(os')
            && SegmentsRegistered(segs', bodies') && FeaturesRegistered(ts', bodies', Trampoline)
            && FeaturesRegistered(os', bodies', Obstacle)
            && Untouched(bodies, SegmentIds(segs) + FeatureIds(ts) + FeatureIds(os),
                         bodies', SegmentIds(segs') + FeatureIds(ts') + FeatureIds(os'))
            && (forall k | 0 <= k < |segs'| :: cutoff <= Right(segs'[k]))
  {
    var n := Retired(segs, cutoff);
    var segs' := segs[n..];
    SuffixShaped(segs, n, heightAt);
    ShiftKeepsRegistered(segs, ts, os, bodies, n);
    var w1 := bodies - SegmentIds(segs[..n]);
    FilterKeepsRegistered(segs', ts, Trampoline, os, Obstacle, w1, cutoff);
    KeepAheadIdsIncrease(ts, cutoff);
    var w2 := w1 - BehindIds(ts, cutoff);
    FilterKeepsRegistered(segs', os, Obstacle, KeepAhead(ts, cutoff), Trampoline, w2, cutoff);
    KeepAheadIdsIncrease(os, cutoff);
    CleanupUntouched(segs, ts, os, bodies, cutoff);
    forall k | 0 <= k < |segs'| ensures cutoff <= Right(segs'[k]) {
      assert segs'[k] == segs[n + k];
      RetiredExactly(segs, cutoff, n + k);
    }
  }

  /** A snapshot of the generator's three lists and of the world's registry. */
  datatype Terrain = Terrain(segs: seq<Segment>, ts: seq<Feature>, os: seq<Feature>, bodies: map<BodyId, Label>, next: BodyId)

  /** The bodies a snapshot's lists refer to. */
  function Tracked(t: Terrain): (ids: set<BodyId>)
  {
    SegmentIds(t.segs) + FeatureIds(t.ts) + FeatureIds(t.os)
  }

  /**
   * `after` is `before` with one batch generated from the draws `rolls`: one
   * new segment per draw, continuing the row at the right edge of the last
   * segment; the old lists kept as prefixes; the new features placed where the
   * draws plan them; exactly the new bodies registered, with fresh ids; and
   * every body the generator did not track left alone.
   */
  ghost predicate Grown(before: Terrain, after: Terrain, rolls: seq<Roll>, screenHeight: real)
    requires before.segs != []
  {
    var n, nt, no := |before.segs|, |before.ts|, |before.os|;
    && |after.segs| == n + |rolls| && after.segs[..n] == before.segs
    && (forall k | n <= k < |after.segs| :: after.segs[k].x == Right(before.segs[n - 1]) + (k - n) as real * SegmentWidth)
    && |after.ts| >= nt && after.ts[..nt] == before.ts
    && |after.os| >= no && after.os[..no] == before.os
    && Spots(after.ts[nt..]) == Planned(after.segs[n..], rolls, PlaceTrampoline, TrampolineLift, screenHeight)
    && Spots(after.os[no..]) == Planned(after.segs[n..], rolls, PlaceObstacle, ObstacleLift, screenHeight)
    && after.bodies == Rebuilt(before.bodies, after.segs[n..], after.ts[nt..], after.os[no..])
    && IdsWithin(before.next, after.next, after.segs[n..], after.ts[nt..], after.os[no..])
    && after.next >= before.next + |rolls|
    && Untouched(before.bodies, Tracked(before), after.bodies, Tracked(after))
  }

  /** The ids of a laid batch, read back from the lists it was appended to. */
  lemma IdsWithinAppended(lo: BodyId, hi: BodyId, segs: seq<Segment>, ts: seq<Feature>, os: seq<Feature>, l: Laid)
    requires IdsWithin(lo, hi, l.segs, l.ts, l.os)
    ensures IdsWithin(lo, hi, (segs + l.segs)[|segs|..], (ts + l.ts)[|ts|..], (os + l.os)[|os|..])
  {
    AppendSplits(segs, l.segs);
    AppendSplits(ts, l.ts);
    AppendSplits(os, l.os);
  }

  /** Appending a laid batch to the lists and its bodies to the registry grows the terrain. */
  lemma BatchGrown(before: Terrain, heightAt: real -> real, rolls: seq<Roll>, screenHeight: real, l: Laid)
    requires before.segs != [] && forall id | id in before.bodies :: id < before.next
    requires |l.segs| == |rolls|
    requires var startX := Right(before.segs[|before.segs| - 1]);
             forall k | 0 <= k < |l.segs| :: l.segs[k] == BatchSegment(startX, heightAt, k, l.segs[k].body)
    requires Spots(l.ts) == Planned(l.segs, rolls, PlaceTrampoline, TrampolineLift, screenHeight)
    requires Spots(l.os) == Planned(l.segs, rolls, PlaceObstacle, ObstacleLift, screenHeight)
    requires IdsWithin(before.next, before.next + Created(l), l.segs, l.ts, l.os)
    ensures Grown(before, Terrain(before.segs + l.segs, before.ts + l.ts, before.os + l.os,
                                  Rebuilt(before.bodies, l.segs, l.ts, l.os), before.next + Created(l)),
                  rolls, screenHeight)
  {
    var segs, ts, os := before.segs, before.ts, before.os;
    var after := Terrain(segs + l.segs, ts + l.ts, os + l.os, Rebuilt(before.bodies, l.segs, l.ts, l.os), before.next + Created(l));
    BatchUntouched(segs, ts, os, before.bodies, before.next, after.next, l);
    IdsWithinAppended(before.next, after.next, segs, ts, os, l);
    AppendSplits(segs, l.segs);
    AppendSplits(ts, l.ts);
    AppendSplits(os, l.os);
    var n := |segs|;
    forall k | n <= k < |after.segs| ensures after.segs[k].x == Right(segs[n - 1]) + (k - n) as real * SegmentWidth {
      assert after.segs[k] == l.segs[k - n] == BatchSegment(Right(segs[n - 1]), heightAt, k - n, l.segs[k - n].body);
    }
  }

  /** The cleanup removes only bodies it tracked, and tracks nothing new. */
  lemma CleanupUntouched(segs: seq<Segment>, ts: seq<Feature>, os: seq<Feature>, bodies: map<BodyId, Label>, cutoff: real)
    ensures var n := Retired(segs, cutoff);
            Untouched(bodies, SegmentIds(segs) + FeatureIds(ts) + FeatureIds(os),
                      bodies - SegmentIds(segs[..n]) - BehindIds(ts, cutoff) - BehindIds(os, cutoff),
                      SegmentIds(segs[n..]) + FeatureIds(KeepAhead(ts, cutoff)) + FeatureIds(KeepAhead(os, cutoff)))
  {
    var n := Retired(segs, cutoff);
    var tracked := SegmentIds(segs) + FeatureIds(ts) + FeatureIds(os);
    forall id | id in SegmentIds(segs[..n]) ensures id in tracked {
      var k :| 0 <= k < n && segs[..n][k].body == id;
      assert segs[k] == segs[..n][k];
    }
    forall id | id in SegmentIds(segs[n..]) ensures id in tracked {
      var k :| 0 <= k < |segs| - n && segs[n..][k].body == id;
      assert segs[n + k] == segs[n..][k];
    }
    forall id | id in FeatureIds(KeepAhead(ts, cutoff)) ensures id in tracked {
      var kept := KeepAhead(ts, cutoff);
      var k :| 0 <= k < |kept| && kept[k].body == id;
      var p :| 0 <= p < |ts| && ts[p] == kept[k];
    }
    forall id | id in FeatureIds(KeepAhead(os, cutoff)) ensures id in tracked {
      var kept := KeepAhead(os, cutoff);
      var k :| 0 <= k < |kept| && kept[k].body == id;
      var p :| 0 <= p < |os| && os[p] == kept[k];
    }
  }

  class TerrainGenerator {
    const world: World
    /** Twice the screen width; half of it is the horizon for generation and retirement. */
    const worldWidth: real
    const screenHeight: real
    /** The height profile, a seeded sine wave fixed when the generator is created. */
    const heightAt: real -> real

    var segments: seq<Segment>
    var trampolines: seq<Feature>
    var obstacles: seq<Feature>

    ghost predicate Valid()
      reads this, world
    {
      && world.Valid()
      && 0.0 <= worldWidth
      && Shaped(segments, heightAt)
      && SegmentsRegistered(segments, world.bodies)
      && FeaturesRegistered(trampolines, world.bodies, Trampoline)
      && FeaturesRegistered(obstacles, world.bodies, Obstacle)
      && SegmentIdsIncrease(segments)
      && FeatureIdsIncrease(trampolines)
      && FeatureIdsIncrease(obstacles)
    }

    /** The generator's lists and the world's registry, as a value. */
    ghost function State(): (t: Terrain)
      reads this, world
    {
      Terrain(segments, trampolines, obstacles, world.bodies, world.next)
    }

    /** The bodies this generator has registered in the world. */
    ghost function TrackedIds(): (ids: set<BodyId>)
      reads this
    {
      SegmentIds(segments) + FeatureIds(trampolines) + FeatureIds(obstacles)
    }

    /** The x position the player must pass for the next batch to be generated. */
    function GenerationThreshold(): (x: real)
      reads this
      requires |segments| > 0
    {
      segments[|segments| - 1].x - worldWidth / 2.0
    }

    /** The x position before which segments and features are retired. */
    function RemovalCutoff(playerX: real): (x: real)
    {
      playerX - worldWidth / 2.0
    }

    constructor (world: World, innerWidth: nat, innerHeight: nat, heightAt: real -> real)
      requires world.Valid()
      ensures Valid() && this.world == world && this.heightAt == heightAt
      ensures worldWidth == 2.0 * innerWidth as real && screenHeight == innerHeight as real
      ensures segments == [] && trampolines == [] && obstacles == []
    {
      this.world := world;
      this.worldWidth := innerWidth as real * 2.0;
      this.screenHeight := innerHeight as real;
      this.heightAt := heightAt;
      segments, trampolines, obstacles := [], [], [];
    }

    /**
     * Throws away the current terrain and lays out the initial stretch:
     * segment i at x = 200 i, with trampolines and obstacles in a fixed pattern.
     * Every other body of the world is kept, and every new body is fresh.
     */
    method GenerateInitialTerrain()
      requires Valid()
      modifies this, world
      ensures Valid()
      ensures world.bodies == Rebuilt(old(world.bodies) - old(TrackedIds()), segments, trampolines, obstacles)
      ensures IdsWithin(old(world.next), world.next, segments, trampolines, obstacles)
      ensures |segments| == InitialSegmentCount(worldWidth)
      ensures forall i | 0 <= i < |segments| :: segments[i].x == i as real * SegmentWidth
      ensures |trampolines| == |segments| / 3
      ensures TrampolinesOnPattern(trampolines, segments, screenHeight)
      ensures |obstacles| == |segments| / 4
      ensures ObstaclesOnPattern(obstacles, segments, screenHeight)
    {
      ClearTerrain();
      AddInitialSegments(Ceil(worldWidth / SegmentWidth) + 5);
      ghost var segs, n1 := segments, world.next;
      forall k | 0 <= k < |segs| ensures Within(old(world.next), n1, segs[k].body) {
        assert segs[k].body in world.bodies;
      }
      AddTerrain();
      forall k | 0 <= k < |trampolines| ensures Within(old(world.next), world.next, trampolines[k].body) {
        assert Within(n1, world.next, trampolines[k].body);
      }
      forall k | 0 <= k < |obstacles| ensures Within(old(world.next), world.next, obstacles[k].body) {
        assert Within(n1, world.next, obstacles[k].body);
      }
    }

    /** The segment loop of `GenerateInitialTerrain`: segment i starts at x = 200 i. */
    method AddInitialSegments(count: nat)
      requires Valid() && segments == [] && trampolines == [] && obstacles == []
      modifies this, world
      ensures Valid() && trampolines == [] && obstacles == []
      ensures |segments| == count
      ensures forall k | 0 <= k < |segments| :: segments[k].x == k as real * SegmentWidth
      ensures world.bodies == WithSegments(old(world.bodies), segments)
      ensures forall k | 0 <= k < |segments| :: old(world.next) <= segments[k].body
      ensures world.next == old(world.next) + |segments|
    {
      var i := 0;
      while i < count
        invariant 0 <= i <= count && |segments| == i
        invariant world.Valid() && trampolines == [] && obstacles == []
        invariant world.next == old(world.next) + |segments|
        invariant InitialRow(segments, world.bodies, old(world.bodies), old(world.next), heightAt)
      {
        var x := i as real * SegmentWidth;
        var height := heightAt(x);
        InitialRowStep(segments, world.bodies, old(world.bodies), old(world.next), heightAt,
                       segments + [Segment(x, SegmentWidth, height, world.next)]);
        var body := CreateTerrainBody(x, height);
        segments := segments + [Segment(x, SegmentWidth, height, body)];
        i := i + 1;
      }
      forall k | 0 <= k < |segments|
        ensures segments[k].x == k as real * SegmentWidth
      {
        PositionFrom(segments, heightAt, 0, k);
      }
      SegmentIdsFrom(segments, old(world.next));
    }

    /**
     * Appends a batch of five segments at the right edge of the last one.
     * `rolls[i]` are the draws for the i-th new segment: a trampoline on it,
     * failing that an obstacle, failing that nothing.
     */
    method GenerateMoreTerrain(rolls: seq<Roll>)
      requires Valid() && segments != [] && |rolls| == BatchSize
      modifies this, world
      ensures Valid()
      ensures Grown(old(State()), State(), rolls, screenHeight)
    {
      ghost var before := State();
      var lastSegment := segments[|segments| - 1];
      var startX := lastSegment.x + lastSegment.width;
      ghost var l := LayBatch(startX, rolls);
      BatchKeepsInvariant(before.segs, before.ts, before.os, before.bodies, before.next, heightAt, rolls, screenHeight, l);
      BatchGrown(before, heightAt, rolls, screenHeight, l);
      assert State() == Terrain(before.segs + l.segs, before.ts + l.ts, before.os + l.os,
                                Rebuilt(before.bodies, l.segs, l.ts, l.os), before.next + Created(l));
    }

    /**
     * The loop of `GenerateMoreTerrain`: lays the batch segment by segment
     * from `startX`; `l` is what it laid.
     */
    method LayBatch(startX: real, rolls: seq<Roll>) returns (ghost l: Laid)
      requires world.Valid()
      modifies this, world
      ensures world.Valid() && |l.segs| == |rolls|
      ensures LaidOn(l, old(world.bodies), startX, heightAt, rolls, screenHeight, old(world.next))
      ensures Laid(segments, trampolines, obstacles) == Join(old(Laid(segments, trampolines, obstacles)), l)
      ensures world.bodies == Rebuilt(old(world.bodies), l.segs, l.ts, l.os)
      ensures world.next == old(world.next) + Created(l)
    {
      ghost var b0, w0, n0 := Laid(segments, trampolines, obstacles), world.bodies, world.next;
      l := Laid([], [], []);
      LaidOnStart(w0, startX, heightAt, rolls, screenHeight, n0);
      assert Join(b0, l) == b0;
      var i := 0;
      while i < |rolls|
        invariant 0 <= i <= |rolls| && |l.segs| == i
        invariant world.Valid()
        invariant LaidOn(l, w0, startX, heightAt, rolls, screenHeight, n0)
        invariant Laid(segments, trampolines, obstacles) == Join(b0, l)
        invariant world.bodies == Rebuilt(w0, l.segs, l.ts, l.os) && world.next == n0 + Created(l)
      {
        var x := startX + i as real * SegmentWidth;
        ghost var s := Segment(x, SegmentWidth, heightAt(x), world.next);
        assert s == BatchSegment(startX, heightAt, i, world.next);
        ghost var p := Pass(s, rolls[i], screenHeight);
        ghost var after := Join(l, p);
        LayKeeps(l, w0, startX, heightAt, rolls, screenHeight, n0, s, after);
        RebuiltLay(w0, l, s, rolls[i], screenHeight, n0);
        JoinAssociates(b0, l, p);
        ghost var before := Laid(segments, trampolines, obstacles);
        AddBatchSegment(x, rolls[i]);
        assert Laid(segments, trampolines, obstacles) == Join(before, p);
        l := after;
        i := i + 1;
      }
    }

    /**
     * One pass of the loop of `GenerateMoreTerrain`: lays the segment at `x`
     * and places the feature, if any, that the draws `r` call for.
     */
    method AddBatchSegment(x: real, r: Roll)
      requires world.Valid()
      modifies this, world
      ensures world.Valid()
      ensures var p := Pass(Segment(x, SegmentWidth, heightAt(x), old(world.next)), r, screenHeight);
              && Laid(segments, trampolines, obstacles) == Join(old(Laid(segments, trampolines, obstacles)), p)
              && world.bodies == Rebuilt(old(world.bodies), p.segs, p.ts, p.os)
              && world.next == old(world.next) + Created(p)
    {
      var height := heightAt(x);
      ghost var s := Segment(x, SegmentWidth, height, world.next);
      ghost var p := Pass(s, r, screenHeight);
      var body := CreateTerrainBody(x, height);
      segments := segments + [Segment(x, SegmentWidth, height, body)];
      WithSegmentsSingle(old(world.bodies), s);
      if r.trampolineDraw < TrampolineChance {
        ghost var t := Feature(x + SegmentWidth / 2.0, screenHeight - height - TrampolineLift, world.next);
        WithFeaturesSingle(world.bodies, t, Trampoline);
        AddTrampoline(x + SegmentWidth / 2.0, screenHeight - height - TrampolineLift);
        assert p.ts == [t] && p.os == [];
      } else if r.obstacleDraw < ObstacleChance {
        ghost var o := Feature(x + SegmentWidth / 2.0, screenHeight - height - ObstacleLift, world.next);
        WithFeaturesSingle(world.bodies, o, Obstacle);
        AddObstacle(x + SegmentWidth / 2.0, screenHeight - height - ObstacleLift);
        assert p.ts == [] && p.os == [o];
      } else {
        assert p.ts == [] && p.os == [];
      }
    }

    /**
     * Retires what lies more than half the world width behind the player:
     * shifts off the leading segments whose right edge is before the cutoff,
     * then drops the trampolines and obstacles before it, removing each
     * retired body from the world.
     */
    method CleanupTerrain(playerX: real)
      requires Valid()
      modifies this, world
      ensures Valid()
      ensures var cutoff := RemovalCutoff(playerX);
              var n := Retired(old(segments), cutoff);
              && segments == old(segments)[n..]
              && trampolines == KeepAhead(old(trampolines), cutoff)
              && obstacles == KeepAhead(old(obstacles), cutoff)
              && world.bodies == old(world.bodies) - SegmentIds(old(segments)[..n])
                                 - BehindIds(old(trampolines), cutoff) - BehindIds(old(obstacles), cutoff)
      ensures world.next == old(world.next)
      ensures Untouched(old(world.bodies), old(TrackedIds()), world.bodies, TrackedIds())
      ensures forall k | 0 <= k < |segments| :: RemovalCutoff(playerX) <= Right(segments[k])
      ensures forall k | 0 <= k < |trampolines| :: RemovalCutoff(playerX) <= trampolines[k].x
      ensures forall k | 0 <= k < |obstacles| :: RemovalCutoff(playerX) <= obstacles[k].x
    {
      var cutoff := RemovalCutoff(playerX);
      CleanupKeeps(segments, trampolines, obstacles, world.bodies, heightAt, cutoff);
      ShiftRetired(cutoff);
      trampolines := RemoveBehind(trampolines, cutoff);
      obstacles := RemoveBehind(obstacles, cutoff);
    }

    /** The shifting loop of `CleanupTerrain`: drops the leading segments that lie wholly behind the cutoff. */
    method ShiftRetired(cutoff: real)
      requires world.Valid()
      modifies this, world
      ensures world.Valid() && world.next == old(world.next)
      ensures var n := Retired(old(segments), cutoff);
              && segments == old(segments)[n..]
              && world.bodies == old(world.bodies) - SegmentIds(old(segments)[..n])
      ensures trampolines == old(trampolines) && obstacles == old(obstacles)
    {
      ghost var s0, w0 := segments, world.bodies;
      ghost var n := 0;
      while |segments| > 0 && segments[0].x + segments[0].width < cutoff
        invariant 0 <= n <= |s0| && segments == s0[n..]
        invariant forall k | 0 <= k < n :: Right(s0[k]) < cutoff
        invariant world.Valid() && world.next == old(world.next)
        invariant world.bodies == w0 - SegmentIds(s0[..n])
        invariant trampolines == old(trampolines) && obstacles == old(obstacles)
        decreases |segments|
      {
        var segment := segments[0];
        assert segment == s0[n];
        segments := segments[1..];
        world.Remove(segment.body);
        SegmentIdsPrefix(s0, n);
        n := n + 1;
        assert segments == s0[n..];
      }
      RetiredAt(s0, cutoff, n);
    }

    /**
     * The filter callback of `CleanupTerrain` over one feature list: removes
     * the body of every feature before the cutoff and returns the others, in order.
     */
    method RemoveBehind(fs: seq<Feature>, cutoff: real) returns (kept: seq<Feature>)
      requires world.Valid()
      modifies world
      ensures world.Valid() && world.next == old(world.next)
      ensures kept == KeepAhead(fs, cutoff)
      ensures world.bodies == old(world.bodies) - BehindIds(fs, cutoff)
    {
      kept := [];
      for i := 0 to |fs|
        invariant world.Valid() && world.next == old(world.next)
        invariant kept == KeepAhead(fs[..i], cutoff)
        invariant world.bodies == old(world.bodies) - BehindIds(fs[..i], cutoff)
      {
        KeepAheadPrefix(fs, cutoff, i);
        BehindIdsPrefix(fs, cutoff, i);
        if fs[i].x < cutoff {
          world.Remove(fs[i].body);
        } else {
          kept := kept + [fs[i]];
        }
      }
      assert fs[..|fs|] == fs;
    }

    /**
     * Once per frame: generates the next batch when the player has come
     * within half the world width of the last segment's start, then cleans up.
     */
    method Update(delta: real, playerX: real, rolls: seq<Roll>)
      requires Valid() && |rolls| == BatchSize
      modifies this, world
      ensures Valid()
      ensures var generated := old(segments) != [] && playerX > old(GenerationThreshold());
              && (generated ==> world.next > old(world.next))
              && (!generated ==> world.next == old(world.next))
      ensures Untouched(old(world.bodies), old(TrackedIds()), world.bodies, TrackedIds())
      ensures forall k | 0 <= k < |segments| :: RemovalCutoff(playerX) <= Right(segments[k])
      ensures forall k | 0 <= k < |trampolines| :: RemovalCutoff(playerX) <= trampolines[k].x
      ensures forall k | 0 <= k < |obstacles| :: RemovalCutoff(playerX) <= obstacles[k].x
    {
      ghost var w0, t0 := world.bodies, TrackedIds();
      if |segments| > 0 && playerX > segments[|segments| - 1].x - worldWidth / 2.0 {
        GenerateMoreTerrain(rolls);
      }
      ghost var w1, t1 := world.bodies, TrackedIds();
      CleanupTerrain(playerX);
      UntouchedTransitive(w0, t0, w1, t1, world.bodies, TrackedIds());
    }

    /** Removes every segment, trampoline and obstacle body from the world and empties the lists. */
    method ClearTerrain()
      requires Valid()
      modifies this, world
      ensures Valid() && segments == [] && trampolines == [] && obstacles == []
      ensures world.bodies == old(world.bodies) - old(TrackedIds()) && world.next == old(world.next)
    {
      ghost var w0 := world.bodies;
      for i := 0 to |segments|
        invariant world.Valid() && world.next == old(world.next)
        invariant segments == old(segments) && trampolines == old(trampolines) && obstacles == old(obstacles)
        invariant world.bodies == w0 - SegmentIds(segments[..i])
      {
        world.Remove(segments[i].body);
        SegmentIdsPrefix(segments, i);
      }
      assert segments[..|segments|] == segments;
      ghost var w1 := world.bodies;
      for i := 0 to |trampolines|
        invariant world.Valid() && world.next == old(world.next)
        invariant segments == old(segments) && trampolines == old(trampolines) && obstacles == old(obstacles)
        invariant world.bodies == w1 - FeatureIds(trampolines[..i])
      {
        world.Remove(trampolines[i].body);
        FeatureIdsPrefix(trampolines, i);
      }
      assert trampolines[..|trampolines|] == trampolines;
      ghost var w2 := world.bodies;
      for i := 0 to |obstacles|
        invariant world.Valid() && world.next == old(world.next)
        invariant segments == old(segments) && trampolines == old(trampolines) && obstacles == old(obstacles)
        invariant world.bodies == w2 - FeatureIds(obstacles[..i])
      {
        world.Remove(obstacles[i].body);
        FeatureIdsPrefix(obstacles, i);
      }
      assert obstacles[..|obstacles|] == obstacles;
      segments := [];
      trampolines := [];
      obstacles := [];
      RemoveInTurn(w0, SegmentIds(old(segments)), FeatureIds(old(trampolines)), FeatureIds(old(obstacles)));
    }

    /** Creates the static ground body of a segment and adds it to the world. */
    method CreateTerrainBody(x: real, height: real) returns (body: BodyId)
      requires world.Valid()
      modifies world
      ensures world.Valid()
      ensures body == old(world.next) && world.next == body + 1
      ensures world.bodies == old(world.bodies)[body := Ground]
    {
      body := world.Add(Ground);
    }

    /**
     * Places the initial trampolines and obstacles on the fixed segment
     * pattern: the trampoline loop, then the obstacle loop.
     */
    method AddTerrain()
      requires Valid() && trampolines == [] && obstacles == []
      modifies this, world
      ensures Valid() && segments == old(segments)
      ensures world.bodies == WithFeatures(WithFeatures(old(world.bodies), trampolines, Trampoline), obstacles, Obstacle)
      ensures IdsWithin(old(world.next), world.next, [], trampolines, obstacles)
      ensures world.next == old(world.next) + |trampolines| + |obstacles|
      ensures |trampolines| == |segments| / 3
      ensures TrampolinesOnPattern(trampolines, segments, screenHeight)
      ensures |obstacles| == |segments| / 4
      ensures ObstaclesOnPattern(obstacles, segments, screenHeight)
    {
      AddInitialTrampolines();
      AddInitialObstacles();
    }

    /** The trampoline loop of `AddTerrain`: one pad on every third segment from index 1. */
    method AddInitialTrampolines()
      requires Valid() && trampolines == []
      modifies this, world
      ensures Valid() && segments == old(segments) && obstacles == old(obstacles)
      ensures world.bodies == WithFeatures(old(world.bodies), trampolines, Trampoline)
      ensures world.next == old(world.next) + |trampolines|
      ensures forall k | 0 <= k < |trampolines| :: old(world.next) <= trampolines[k].body
      ensures |trampolines| == |segments| / 3
      ensures TrampolinesOnPattern(trampolines, segments, screenHeight)
    {
      var n := |segments|;
      var i := 1;
      while i < n - 1
        invariant world.Valid() && segments == old(segments) && obstacles == old(obstacles)
        invariant i == 1 + 3 * |trampolines|
        invariant |trampolines| == 0 || 1 + 3 * (|trampolines| - 1) < n - 1
        invariant world.next == old(world.next) + |trampolines|
        invariant PatternRow(trampolines, segments, 1, 3, TrampolineLift, screenHeight,
                             world.bodies, old(world.bodies), old(world.next), Trampoline)
      {
        var segment := segments[i];
        var x, y := segment.x + segment.width / 2.0, screenHeight - segment.height - TrampolineLift;
        PatternRowStep(trampolines, segments, 1, 3, TrampolineLift, screenHeight, world.bodies, old(world.bodies),
                       old(world.next), Trampoline, trampolines + [Feature(x, y, world.next)]);
        AddTrampoline(x, y);
        i := i + 3;
      }
      TrampolineLoopCount(n, |trampolines|);
      FeatureIdsFrom(trampolines, old(world.next));
      FeaturesAdded(old(world.bodies), segments, obstacles, Obstacle, trampolines, Trampoline);
    }

    /** The obstacle loop of `AddTerrain`: one obstacle on every fourth segment from index 2. */
    method AddInitialObstacles()
      requires Valid() && obstacles == []
      modifies this, world
      ensures Valid() && segments == old(segments) && trampolines == old(trampolines)
      ensures world.bodies == WithFeatures(old(world.bodies), obstacles, Obstacle)
      ensures world.next == old(world.next) + |obstacles|
      ensures forall k | 0 <= k < |obstacles| :: old(world.next) <= obstacles[k].body
      ensures |obstacles| == |segments| / 4
      ensures ObstaclesOnPattern(obstacles, segments, screenHeight)
    {
      var n := |segments|;
      var j := 2;
      while j < n - 1
        invariant world.Valid() && segments == old(segments) && trampolines == old(trampolines)
        invariant j == 2 + 4 * |obstacles|
        invariant |obstacles| == 0 || 2 + 4 * (|obstacles| - 1) < n - 1
        invariant world.next == old(world.next) + |obstacles|
        invariant PatternRow(obstacles, segments, 2, 4, ObstacleLift, screenHeight,
                             world.bodies, old(world.bodies), old(world.next), Obstacle)
      {
        var segment := segments[j];
        var x, y := segment.x + segment.width / 2.0, screenHeight - segment.height - ObstacleLift;
        PatternRowStep(obstacles, segments, 2, 4, ObstacleLift, screenHeight, world.bodies, old(world.bodies),
                       old(world.next), Obstacle, obstacles + [Feature(x, y, world.next)]);
        AddObstacle(x, y);
        j := j + 4;
      }
      ObstacleLoopCount(n, |obstacles|);
      FeatureIdsFrom(obstacles, old(world.next));
      FeaturesAdded(old(world.bodies), segments, trampolines, Trampoline, obstacles, Obstacle);
    }

    /** Creates a trampoline body at (x, y), adds it to the world and to the trampoline list. */
    method AddTrampoline(x: real, y: real)
      requires world.Valid()
      modifies this, world
      ensures world.Valid()
      ensures trampolines == old(trampolines) + [Feature(x, y, old(world.next))]
      ensures segments == old(segments) && obstacles == old(obstacles)
      ensures world.bodies == old(world.bodies)[old(world.next) := Trampoline]
      ensures world.next == old(world.next) + 1
    {
      var body := world.Add(Trampoline);
      trampolines := trampolines + [Feature(x, y, body)];
    }

    /** Creates an obstacle body at (x, y), adds it to the world and to the obstacle list. */
    method AddObstacle(x: real, y: real)
      requires world.Valid()
      modifies this, world
      ensures world.Valid()
      ensures obstacles == old(obstacles) + [Feature(x, y, old(world.next))]
      ensures segments == old(segments) && trampolines == old(trampolines)
      ensures world.bodies == old(world.bodies)[old(world.next) := Obstacle]
      ensures world.next == old(world.next) + 1
    {
      var body := world.Add(Obstacle);
      obstacles := obstacles + [Feature(x, y, body)];
    }
  }
}
