# Waypoint updater — a Dafny model

The waypoint updater node of a self-driving car stack receives the vehicle's
pose (`/current_pose`) and the global route (`/base_waypoints`) and publishes
the next `LOOKAHEAD_WPS` = 200 route waypoints ahead of the vehicle
(`final_waypoints`). This project models that node:

- `closest_waypoint`, a linear scan for the nearest waypoint. It starts from a
  best distance of 100000 and replaces the best only on a strictly smaller
  distance. So ties go to the earliest index, and 0 comes back when nothing
  beats 100000 (including on an empty route).
- `next_waypoint`, which steps one past the closest waypoint when the bearing
  to it differs from the vehicle's yaw by more than π/4. It steps once at most
  and never clamps, so the result can be the route's length.
- The published window, the Python slice `waypoints[i:i+200]`, clipped at the
  route end and empty when `i` is past it.
- `distance`, which sums segment lengths along the route from `wp1` to `wp2`.
- `get_waypoint_velocity` / `set_waypoint_velocity`, which read and overwrite one
  waypoint's target velocity (`twist.linear.x`).
- The node itself (`WaypointUpdater`), which holds `cur_pose`. `pose_cb` only
  stores the pose. `waypoints_cb` computes and publishes the window, and only
  when a pose is already stored.

Abstractions:

- Distances are compared squared, over `real` coordinates. The square root is
  monotone on non-negative numbers, so the scan picks the same index, and the
  sentinel test `d < 100000` becomes `d² < 10^10` (`SentinelSq`).
- The heading test (quaternion-to-yaw conversion, `atan2`, `fabs`, `> π/4`)
  is a parameter `offHeading(pose, position)`. The closest waypoint is
  "off heading" when `offHeading` is true, i.e. when the angle exceeds π/4.
  The test receives the vehicle's pose and the position of the closest
  waypoint, which are the only values the source's test reads.
- The segment length that `distance` sums is a parameter `dl`. It is assumed
  non-negative and zero from a point to itself, as a Euclidean distance is.
- List indices follow Python. A negative index counts from the end
  (`PyIndex`). An index out of range raises `IndexError`, which the
  preconditions of `Distance` and `SetWaypointVelocity` exclude.
- The published message is returned as an `Outcome`: `Published(window)`,
  `NotPublished`, or `IndexError` when the callback raises.

Three behaviours of the code worth stating:

- The code keeps no route. It runs the computation when a route arrives
  (`waypoints_cb`), not when a pose arrives.
- The code does not reject an empty route. With a pose stored, an empty route
  makes `next_waypoint` read `waypoints[0]` and raise, so `WaypointsCb`
  returns `IndexError`.
- The code does not clamp the corrected index. A start index equal to the
  route length gives an empty window (`StraightRouteOverrun`).

## Model

| member | source | states |
|---|---|---|
| WaypointUpdaterNode.SqDist | ros/src/waypoint_updater/waypoint_updater.py:88 | the squared Euclidean distance used in place of the scan's distance is non-negative and zero between equal points |
| WaypointUpdaterNode.ClosestWaypoint | ros/src/waypoint_updater/waypoint_updater.py:85-94 | returns 0 on an empty route and an index below the length otherwise; returns 0 when no waypoint is nearer than 100000; otherwise returns a waypoint nearer than 100000 of minimal distance, with every earlier index strictly farther (first occurrence wins) |
| WaypointUpdaterNode.ClosestIndexUnique | ros/src/waypoint_updater/waypoint_updater.py:85-94 | the scan's specification admits exactly one index for a given pose and route |
| WaypointUpdaterNode.NextWaypoint | ros/src/waypoint_updater/waypoint_updater.py:96-121 | on a non-empty route, the result is the closest index when the closest waypoint is not off heading (`offHeading` false), and the closest index plus one when it is off heading (`offHeading` true, i.e. angle > π/4); so it is at most the route's length |
| WaypointUpdaterNode.NextIndexUnique | ros/src/waypoint_updater/waypoint_updater.py:96-121 | the corrected start index is determined by the pose, the route and the heading test, so recomputing with unchanged inputs gives the same window |
| WaypointUpdaterNode.Window | ros/src/waypoint_updater/waypoint_updater.py:54 | the slice `route[start:start+size]` has length `min(size, len - start)`, or 0 when `start >= len`; its element k is `route[start + k]` |
| WaypointUpdaterNode.StraightRouteClosest | ros/src/waypoint_updater/waypoint_updater.py:85-94 | on a straight route along the x axis, a vehicle standing on waypoint k gets k from the scan |
| WaypointUpdaterNode.StraightRouteOnHeading | ros/src/waypoint_updater/waypoint_updater.py:96-121 | on ten waypoints at x = 0..9, a vehicle at x = 4 whose closest waypoint is not off heading (`offHeading` false) starts at index 4, and a window of three holds x = 4, 5, 6 |
| WaypointUpdaterNode.StraightRouteOverrun | ros/src/waypoint_updater/waypoint_updater.py:113-114 | a vehicle on the last waypoint whose closest waypoint is off heading (`offHeading` true, i.e. angle > π/4) is given the route's length as start index, and its window of 200 is empty |
| WaypointUpdaterNode.Distance | ros/src/waypoint_updater/waypoint_updater.py:77-83 | the loop's total equals the sum of `dl(wps[j-1], wps[j])` for j from wp1+1 to wp2 (the first step adds the zero self-distance); it is non-negative and 0 when wp2 <= wp1 |
| WaypointUpdaterNode.PathLengthNonNegative | ros/src/waypoint_updater/waypoint_updater.py:77-83 | a path length over non-negative segment lengths is non-negative |
| WaypointUpdaterNode.PathLengthAdditive | ros/src/waypoint_updater/waypoint_updater.py:77-83 | for a <= b <= c, the path length from a to c is the path length from a to b plus that from b to c |
| WaypointUpdaterNode.GetWaypointVelocity | ros/src/waypoint_updater/waypoint_updater.py:71-72 | a waypoint's target velocity is its twist's linear x |
| WaypointUpdaterNode.SetWaypointVelocity | ros/src/waypoint_updater/waypoint_updater.py:71-75 | afterwards the velocity read back from the indexed waypoint (negative index from the end) is the new value; its pose, angular twist and linear y and z are unchanged; every other waypoint is unchanged |
| WaypointUpdaterNode.WaypointUpdater.constructor | ros/src/waypoint_updater/waypoint_updater.py:29-31 | a new node holds no pose and no next waypoints |
| WaypointUpdaterNode.WaypointUpdater.PoseCb | ros/src/waypoint_updater/waypoint_updater.py:44-46 | stores the pose as the current pose and changes nothing else |
| WaypointUpdaterNode.WaypointUpdater.WaypointsCb | ros/src/waypoint_updater/waypoint_updater.py:48-61 | publishes nothing without a stored pose; raises on an empty route; otherwise publishes the 200-waypoint window starting at the corrected closest index; never changes the node's state |

## Left out

- ROS plumbing: node initialisation, subscribers, the publisher, `rospy.spin`, the `Lane` message header (frame id `/world`, time stamp) and the `ROSInterruptException` handler. This is transport and I/O. The published message is the returned `Outcome`.
- The heading computation (`euler_from_quaternion`, `atan2`, `fabs`, the comparison with π/4). This is a foreign library call and floating-point trigonometry. It is the parameter `offHeading`, so its missing angle wrap-around is not modelled either.
- `math.sqrt` and floating-point rounding. Distances are squared reals. Two distinct squared distances whose rounded square roots are equal could break a tie differently in the source.
- Distance: the segment length is the abstract parameter `dl`, not the Euclidean formula of line 79, and the sum is exact real arithmetic, not a float accumulation.
- `traffic_cb` and `obstacle_cb`: no-op stubs with no effect.
- The `DEBUG` logging in `next_waypoint`. It only observes, and `DEBUG` is `False`. With logging on, line 116 would index past the route when the corrected index equals its length.
- SetWaypointVelocity: the source mutates a shared `Waypoint` object, so every list holding that object sees the change. The model updates the array's element as a value; aliasing between the route and a published window is not captured.
- NextWaypoint: requires a non-empty route, because the source raises `IndexError` at line 98 on an empty one; that raise is modelled at its only caller, where `WaypointsCb` returns `IndexError`.
- Distance and SetWaypointVelocity: a call with an index outside the list, which raises `IndexError` in the source, is excluded by the precondition rather than modelled as an error.
