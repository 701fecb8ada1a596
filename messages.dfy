/**
 * The ROS message data the waypoint updater reads and writes, reduced to the
 * fields it touches or carries along. Headers (frame id, time stamp) are
 * dropped; every float becomes a `real`.
 */
module Messages {

  /** geometry_msgs Point / Vector3: three coordinates. */
  datatype Vector3 = Vector3(x: real, y: real, z: real)

  /** geometry_msgs Quaternion: an orientation, carried but never decoded here. */
  datatype Quaternion = Quaternion(x: real, y: real, z: real, w: real)

  /** geometry_msgs Pose: where something is and which way it faces. */
  datatype Pose = Pose(position: Vector3, orientation: Quaternion)

  /** geometry_msgs Twist: `linear.x` is a waypoint's target velocity. */
  datatype Twist = Twist(linear: Vector3, angular: Vector3)

  /** styx_msgs Waypoint: a pose on the route and its target twist. */
  datatype Waypoint = Waypoint(pose: Pose, twist: Twist)
}
