/**
 * The waypoint updater node: given the vehicle's pose and the global route,
 * it finds the nearest waypoint, steps one further when that waypoint is off
 * the vehicle's heading, and publishes the next LookaheadWps waypoints.
 *
 * Euclidean distances are compared squared (the square root is monotone on
 * non-negative numbers, so the comparisons come out the same), the heading
 * test is a parameter `offHeading`, and the segment length summed by
 * `Distance` is a parameter `dl`.
 */
module WaypointUpdaterNode {
  import opened Messages

  datatype Option<T> = None | Some(value: T)

  /** What one route message leads to. */
  datatype Outcome =
    | Published(window: seq<Waypoint>)   // a window went out on final_waypoints
    | NotPublished                        // no pose yet: nothing happens
    | IndexError                          // the callback raised before publishing

  /** Number of waypoints published ahead of the vehicle. */
  const LookaheadWps: nat := 200

  /** The scan's initial best distance, 100000, squared. */
  const SentinelSq: real := 10000000000.0

  function Min(a: int, b: int): int { if a <= b then a else b }

  /** Squared Euclidean distance between two points. */
  function SqDist(a: Vector3, b: Vector3): (r: real)
    ensures r >= 0.0
    ensures a == b ==> r == 0.0
  {
    var dx, dy, dz := a.x - b.x, a.y - b.y, a.z - b.z;
    assert dx * dx >= 0.0 && dy * dy >= 0.0 && dz * dz >= 0.0;
    dx * dx + dy * dy + dz * dz
  }

  /** Squared distance from `p` to waypoint `w`. */
  function DistTo(p: Vector3, w: Waypoint): real
  {
    SqDist(p, w.pose.position)
  }

  /** Python's reading of an index `k` into a list of length `n`: negative counts from the end. */
  function PyIndex(k: int, n: nat): int
  {
    if k < 0 then k + n else k
  }

  // ---------------------------------------------------------------------------
  // closest_waypoint

  /** No waypoint is nearer to `p` than the sentinel distance. */
  predicate AllBeyondSentinel(p: Vector3, wps: seq<Waypoint>)
  {
    forall i :: 0 <= i < |wps| ==> SentinelSq <= DistTo(p, wps[i])
  }

  /** `c` is a waypoint of minimal distance to `p`, and the first one. */
  predicate IsFirstNearest(p: Vector3, wps: seq<Waypoint>, c: nat)
  {
    c < |wps|
    && (forall i :: 0 <= i < |wps| ==> DistTo(p, wps[c]) <= DistTo(p, wps[i]))
    && (forall i :: 0 <= i < c ==> DistTo(p, wps[c]) < DistTo(p, wps[i]))
  }

  /**
   * What the scan returns: 0 when no waypoint beats the sentinel (this covers
   * the empty route), otherwise the first waypoint of minimal distance.
   */
  predicate IsClosestIndex(p: Vector3, wps: seq<Waypoint>, c: nat)
  {
    if AllBeyondSentinel(p, wps) then c == 0 else IsFirstNearest(p, wps, c)
  }

  /** The linear scan of closest_waypoint; only a strictly smaller distance replaces the best. */
  method ClosestWaypoint(pose: Pose, waypoints: seq<Waypoint>) returns (closest: nat)
    ensures |waypoints| == 0 ==> closest == 0
    ensures |waypoints| > 0 ==> closest < |waypoints|
    ensures AllBeyondSentinel(pose.position, waypoints) ==> closest == 0
    ensures !AllBeyondSentinel(pose.position, waypoints) ==>
      DistTo(pose.position, waypoints[closest]) < SentinelSq
      && IsFirstNearest(pose.position, waypoints, closest)
  {
    var p := pose.position;
    var closestLen := SentinelSq;
    closest := 0;
    for i := 0 to |waypoints|
      invariant closestLen <= SentinelSq
      invariant closestLen == SentinelSq ==> closest == 0 && AllBeyondSentinel(p, waypoints[..i])
      invariant closestLen < SentinelSq ==>
        IsFirstNearest(p, waypoints[..i], closest) && closestLen == DistTo(p, waypoints[closest])
    {
      var dist := DistTo(p, waypoints[i]);
      if dist < closestLen {
        closestLen := dist;
        closest := i;
      }
    }
    assert waypoints[..|waypoints|] == waypoints;
  }

  /** The scan's result is determined by the pose and the route. */
  lemma ClosestIndexUnique(p: Vector3, wps: seq<Waypoint>, c1: nat, c2: nat)
    requires IsClosestIndex(p, wps, c1) && IsClosestIndex(p, wps, c2)
    ensures c1 == c2
  {
  }

  // ---------------------------------------------------------------------------
  // next_waypoint

  /**
   * `n` is the closest index, or one past it exactly when the heading test
   * `offHeading` holds for the vehicle's pose and the closest waypoint.
   */
  predicate IsNextIndex(pose: Pose, wps: seq<Waypoint>, offHeading: (Pose, Vector3) -> bool, n: nat)
  {
    (n < |wps| && IsClosestIndex(pose.position, wps, n)
       && !offHeading(pose, wps[n].pose.position))
    || (1 <= n <= |wps| && IsClosestIndex(pose.position, wps, n - 1)
       && offHeading(pose, wps[n - 1].pose.position))
  }

  /** next_waypoint: the closest index, advanced once when the closest waypoint is off heading. */
  method NextWaypoint(pose: Pose, waypoints: seq<Waypoint>, offHeading: (Pose, Vector3) -> bool)
    returns (next: nat)
    requires |waypoints| > 0
    ensures next <= |waypoints|
    ensures IsNextIndex(pose, waypoints, offHeading, next)
  {
    next := ClosestWaypoint(pose, waypoints);
    var mapPosition := waypoints[next].pose.position;
    if offHeading(pose, mapPosition) {
      next := next + 1;
    }
  }

  /** The corrected index is determined by the pose, the route and the heading test. */
  lemma NextIndexUnique(pose: Pose, wps: seq<Waypoint>, offHeading: (Pose, Vector3) -> bool, n1: nat, n2: nat)
    requires IsNextIndex(pose, wps, offHeading, n1) && IsNextIndex(pose, wps, offHeading, n2)
    ensures n1 == n2
  {
    var c1 := if n1 < |wps| && IsClosestIndex(pose.position, wps, n1)
                 && !offHeading(pose, wps[n1].pose.position) then n1 else n1 - 1;
    var c2 := if n2 < |wps| && IsClosestIndex(pose.position, wps, n2)
                 && !offHeading(pose, wps[n2].pose.position) then n2 else n2 - 1;
    ClosestIndexUnique(pose.position, wps, c1, c2);
  }

  // ---------------------------------------------------------------------------
  // The published window

  /** The Python slice `route[start:start+size]` for a non-negative `start`. */
  function Window(route: seq<Waypoint>, start: nat, size: nat): (w: seq<Waypoint>)
    ensures |w| == if start >= |route| then 0 else Min(size, |route| - start)
    ensures start >= |route| ==> w == []
    ensures forall k :: 0 <= k < |w| ==> w[k] == route[start + k]
  {
    if start >= |route| then [] else route[start..Min(start + size, |route|)]
  }

  // ---------------------------------------------------------------------------
  // A straight route along the x axis

  /** `n` waypoints at x = 0, 1, ..., n-1, all with zero velocity. */
  function StraightRoute(n: nat): seq<Waypoint>
  {
    var zero := Vector3(0.0, 0.0, 0.0);
    seq(n, i => Waypoint(Pose(Vector3(i as real, 0.0, 0.0), Quaternion(0.0, 0.0, 0.0, 1.0)), Twist(zero, zero)))
  }

  /** A vehicle standing on waypoint `k` of a straight route finds `k` as its closest waypoint. */
  lemma StraightRouteClosest(n: nat, k: nat)
    requires k < n
    ensures IsClosestIndex(Vector3(k as real, 0.0, 0.0), StraightRoute(n), k)
  {
    var p, route := Vector3(k as real, 0.0, 0.0), StraightRoute(n);
    assert DistTo(p, route[k]) == 0.0;
    forall i | 0 <= i < k
      ensures 0.0 < DistTo(p, route[i])
    {
      var d := (k - i) as real;
      assert route[i].pose.position == Vector3(i as real, 0.0, 0.0);
      assert 0.0 < d * d;
    }
  }

  /**
   * On a ten-waypoint straight route, a vehicle at x = 4 heading along the
   * route starts its window at waypoint 4; a window of three holds x = 4, 5, 6.
   */
  lemma StraightRouteOnHeading(orientation: Quaternion, offHeading: (Pose, Vector3) -> bool)
    requires !offHeading(Pose(Vector3(4.0, 0.0, 0.0), orientation), Vector3(4.0, 0.0, 0.0))
    ensures IsNextIndex(Pose(Vector3(4.0, 0.0, 0.0), orientation), StraightRoute(10), offHeading, 4)
    ensures var w := Window(StraightRoute(10), 4, 3);
      |w| == 3 && w[0].pose.position.x == 4.0 && w[1].pose.position.x == 5.0 && w[2].pose.position.x == 6.0
  {
    StraightRouteClosest(10, 4);
  }

  /**
   * A vehicle on the last waypoint of a straight route whose heading test
   * fails is given the route's length as its start index, and an empty window.
   */
  lemma StraightRouteOverrun(orientation: Quaternion, offHeading: (Pose, Vector3) -> bool)
    requires offHeading(Pose(Vector3(9.0, 0.0, 0.0), orientation), Vector3(9.0, 0.0, 0.0))
    ensures IsNextIndex(Pose(Vector3(9.0, 0.0, 0.0), orientation), StraightRoute(10), offHeading, 10)
    ensures Window(StraightRoute(10), 10, LookaheadWps) == []
  {
    StraightRouteClosest(10, 9);
  }

  // ---------------------------------------------------------------------------
  // distance

  /** A segment length: never negative, and zero from a point to itself. */
  ghost predicate IsSegmentLength(dl: (Vector3, Vector3) -> real)
  {
    (forall a, b :: dl(a, b) >= 0.0) && (forall a :: dl(a, a) == 0.0)
  }

  /**
   * The path length from waypoint `a` to waypoint `b`: the sum of
   * `dl(wps[j-1], wps[j])` for `j` from `a+1` to `b`, with Python indexing.
   */
  function PathLength(wps: seq<Waypoint>, a: int, b: int, dl: (Vector3, Vector3) -> real): real
    requires a <= b ==> -|wps| <= a && b < |wps|
    decreases b - a
  {
    if b <= a then 0.0
    else PathLength(wps, a, b - 1, dl)
         + dl(wps[PyIndex(b - 1, |wps|)].pose.position, wps[PyIndex(b, |wps|)].pose.position)
  }

  /** distance: sums segment lengths from `wp1` to `wp2`, moving `wp1` along. */
  method Distance(waypoints: seq<Waypoint>, wp1: int, wp2: int, dl: (Vector3, Vector3) -> real)
    returns (dist: real)
    requires IsSegmentLength(dl)
    requires wp1 <= wp2 ==> -|waypoints| <= wp1 && wp2 < |waypoints|
    ensures dist == PathLength(waypoints, wp1, wp2, dl)
    ensures dist >= 0.0
    ensures wp2 <= wp1 ==> dist == 0.0
  {
    var n := |waypoints|;
    dist := 0.0;
    var from := wp1;
    var i := wp1;
    while i <= wp2
      invariant if wp1 <= wp2 then wp1 <= i <= wp2 + 1 else i == wp1
      invariant from == if i == wp1 then wp1 else i - 1
      invariant dist == PathLength(waypoints, wp1, i - 1, dl)
      decreases wp2 + 1 - i
    {
      dist := dist + dl(waypoints[PyIndex(from, n)].pose.position, waypoints[PyIndex(i, n)].pose.position);
      from := i;
      i := i + 1;
    }
    PathLengthNonNegative(waypoints, wp1, wp2, dl);
  }

  lemma {:induction false} PathLengthNonNegative(wps: seq<Waypoint>, a: int, b: int, dl: (Vector3, Vector3) -> real)
    requires IsSegmentLength(dl)
    requires a <= b ==> -|wps| <= a && b < |wps|
    ensures PathLength(wps, a, b, dl) >= 0.0
    decreases b - a
  {
    if a < b {
      PathLengthNonNegative(wps, a, b - 1, dl);
    }
  }

  /** Path lengths add up along the route. */
  lemma {:induction false} PathLengthAdditive(wps: seq<Waypoint>, a: int, b: int, c: int, dl: (Vector3, Vector3) -> real)
    requires -|wps| <= a <= b <= c < |wps|
    ensures PathLength(wps, a, c, dl) == PathLength(wps, a, b, dl) + PathLength(wps, b, c, dl)
    decreases c - b
  {
    if b < c {
      PathLengthAdditive(wps, a, b, c - 1, dl);
    }
  }

  // ---------------------------------------------------------------------------
  // Velocity accessors

  /** get_waypoint_velocity: a waypoint's target velocity is its twist's linear x. */
  function GetWaypointVelocity(waypoint: Waypoint): real
  {
    waypoint.twist.linear.x
  }

  /** set_waypoint_velocity: overwrite the target velocity of one waypoint in place. */
  method SetWaypointVelocity(waypoints: array<Waypoint>, waypoint: int, velocity: real)
    requires -waypoints.Length <= waypoint < waypoints.Length
    modifies waypoints
    ensures var k := PyIndex(waypoint, waypoints.Length);
      GetWaypointVelocity(waypoints[k]) == velocity
      && waypoints[k].pose == old(waypoints[k].pose)
      && waypoints[k].twist.angular == old(waypoints[k].twist.angular)
      && waypoints[k].twist.linear.y == old(waypoints[k].twist.linear.y)
      && waypoints[k].twist.linear.z == old(waypoints[k].twist.linear.z)
    ensures forall j :: 0 <= j < waypoints.Length && j != PyIndex(waypoint, waypoints.Length) ==>
      waypoints[j] == old(waypoints[j])
  {
    var k := PyIndex(waypoint, waypoints.Length);
    var w := waypoints[k];
    waypoints[k] := w.(twist := w.twist.(linear := w.twist.linear.(x := velocity)));
  }

  // ---------------------------------------------------------------------------
  // The node and its callbacks

  class WaypointUpdater {
    /** The last pose received, if any. */
    var curPose: Option<Pose>
    /** Initialised and never updated. */
    var nextWaypoints: Option<seq<Waypoint>>

    constructor ()
      ensures curPose == None && nextWaypoints == None
    {
      curPose := None;
      nextWaypoints := None;
    }

    /** pose_cb: remember the latest pose; nothing is computed or published. */
    method PoseCb(msg: Pose)
      modifies this
      ensures curPose == Some(msg)
      ensures nextWaypoints == old(nextWaypoints)
    {
      curPose := Some(msg);
    }

    /**
     * waypoints_cb: with a pose stored, publish the window of the route that
     * starts at the corrected closest index; without one, do nothing. The
     * node's state is never changed. `next` is the start index used.
     */
    method WaypointsCb(waypoints: seq<Waypoint>, offHeading: (Pose, Vector3) -> bool)
      returns (outcome: Outcome, ghost next: nat)
      ensures curPose == None ==> outcome == NotPublished
      ensures curPose != None && |waypoints| == 0 ==> outcome == IndexError
      ensures curPose != None && |waypoints| > 0 ==>
        IsNextIndex(curPose.value, waypoints, offHeading, next)
        && outcome == Published(Window(waypoints, next, LookaheadWps))
    {
      next := 0;
      if curPose != None {
        if |waypoints| == 0 {
          // closest_waypoint yields 0 and next_waypoint reads waypoints[0]
          outcome := IndexError;
        } else {
          var nextWpI := NextWaypoint(curPose.value, waypoints, offHeading);
          next := nextWpI;
          outcome := Published(Window(waypoints, nextWpI, LookaheadWps));
        }
      } else {
        outcome := NotPublished;
      }
    }
  }
}
