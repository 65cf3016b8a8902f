/** The baseline agent of smartcab/agent.py: it encodes the state like the
    learning agents, acts at random when the legality rule allows its
    waypoint and stays put (action None) otherwise, and sums its rewards. */
module Baseline {
  import opened Domain
  import opened StateEncoding
  import opened Traffic

  class LearningAgent {
    var state: Option<State>
    var nextWaypoint: Value
    /** The sum of all rewards received; never reset between trials. */
    var reward: real

    constructor ()
      ensures state == None && nextWaypoint == Nil && reward == 0.0
    {
      state, nextWaypoint, reward := None, Nil, 0.0;
    }

    method Reset()
      modifies this
      ensures state == None && nextWaypoint == Nil && reward == old(reward)
    {
      state := None;
      nextWaypoint := Nil;
    }

    /** One tick; returns the action handed to `env.act`. `pick` is the
        draw of `random.choice(Environment.valid_actions)`. */
    method Update(waypoint: Value, inputs: seq<Item>, pick: nat, act: Value -> real) returns (action: Value)
      requires DistinctKeys(inputs) && Sensed(inputs)
      modifies this
      ensures action in ValidActions
      ensures !IsAction(waypoint, inputs) ==> action == Nil
      ensures IsAction(waypoint, inputs) ==> action == Choice(ValidActions, pick)
      ensures nextWaypoint == waypoint && state == Some(Encode(inputs, waypoint))
      ensures reward == old(reward) + act(action)
    {
      nextWaypoint := waypoint;
      var isAction := IsAction(waypoint, inputs);
      action := Nil;
      if isAction {
        action := Choice(ValidActions, pick);
      }
      state := Some(Encode(inputs, waypoint));
      var r := act(action);
      reward := reward + r;
    }
  }
}
