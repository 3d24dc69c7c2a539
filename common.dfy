/** Records shared by every part of the swarm: an optional value, positions, and
    the threat dictionary built by the queen's detector and by the /spawn_threat
    endpoint. */
module Common {

  /** Python's `None` versus a present value. */
  datatype Option<+T> = None | Some(value: T) {
    /** `d.get(key, default)` on a value that may be absent. */
    function GetOr(default: T): T {
      if Some? then value else default
    }
  }

  /** A ground position `(x, y)` in metres. */
  datatype Pos = Pos(x: real, y: real)

  /** A vehicle position `(x, y, z)` as returned by a pose query. */
  datatype Pos3 = Pos3(x: real, y: real, z: real)

  /** A threat record. `class`, `world_pos` and `timestamp` are always present
      where one is built (queen.py:241-247, datacenter.py:192-197); a
      confidence or a bounding-box area may be missing, and readers then fall
      back to a default. */
  datatype Threat = Threat(
    cls: string,
    confidence: Option<real>,
    worldPos: Pos,
    bboxArea: Option<real>,
    timestamp: real)
}
