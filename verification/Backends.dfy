/** The backend as the executors see it: mode rules, the firmware wrench limit and the log of
    everything that was commanded. */
module Backends {
  import opened Numbers
  import opened Geometry
  import opened Types

  class Backend {
    var mode: ControlMode
    var maxWrench: Wrench
    ghost var limits: seq<Wrench>      // every firmware wrench limit armed so far
    var cartesianLog: seq<Pose>
    var jointLog: seq<seq<real>>
    var gripperLog: seq<GripperCommand>

    constructor (maxWrench: Wrench)
      ensures mode == Idle && this.maxWrench == maxWrench
      ensures cartesianLog == [] && jointLog == [] && gripperLog == [] && limits == []
    {
      mode := Idle;
      this.maxWrench := maxWrench;
      cartesianLog, jointLog, gripperLog, limits := [], [], [], [];
    }

    method SetMode(mode: ControlMode, limit: Option<Wrench>)
      modifies this`mode, this`maxWrench, this`limits
      ensures this.mode == mode
      ensures limits == old(limits) + if limit.Some? then [limit.value] else []
      ensures maxWrench == if limit.Some? then limit.value else old(maxWrench)
    {
      this.mode := mode;
      if limit.Some? {
        maxWrench := limit.value;
        limits := limits + [limit.value];
      }
    }

    /** Streaming a pose outside a Cartesian motion mode is an error, and nothing is streamed. */
    method StreamCartesian(pose: Pose) returns (ok: bool)
      modifies this`cartesianLog
      ensures ok <==> mode.IsCartesian()
      ensures cartesianLog == if ok then old(cartesianLog) + [pose] else old(cartesianLog)
    {
      if !mode.IsCartesian() {
        return false;
      }
      cartesianLog := cartesianLog + [pose];
      ok := true;
    }

    method StreamJoint(q: seq<real>) returns (ok: bool)
      modifies this`jointLog
      ensures ok <==> !mode.IsCartesian() && mode != Idle
      ensures jointLog == if ok then old(jointLog) + [q] else old(jointLog)
    {
      if mode.IsCartesian() || mode == Idle {
        return false;
      }
      jointLog := jointLog + [q];
      ok := true;
    }

    method SetContactWrenchLimit(limit: Wrench)
      modifies this`maxWrench, this`limits
      ensures maxWrench == limit && limits == old(limits) + [limit]
    {
      maxWrench := limit;
      limits := limits + [limit];
    }

    method MoveGripper(command: GripperCommand)
      modifies this`gripperLog
      ensures gripperLog == old(gripperLog) + [command]
    {
      gripperLog := gripperLog + [command];
    }

    method Stop()
      modifies this`mode
      ensures mode == Idle
    {
      mode := Idle;
    }
  }
}
