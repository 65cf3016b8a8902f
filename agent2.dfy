/** The working tabular Q-learning agent of smartcab/agent2.py. The route
    planner's waypoint, the sensed dictionary, the random draws and the
    environment's reward function (`env.act`) are parameters. */
module Agent2 {
  import opened Domain
  import opened StateEncoding
  import opened ValueTable
  import Policy

  class LearningAgent {
    const alpha: real := 0.9
    const epsilon: real := 0.05
    const gamma: real := 0.01

    var state: Option<State>
    var newState: Option<State>
    var nextWaypoint: Value
    /** The action taken on the previous tick; None is also a valid action. */
    var action: Value
    /** The reward of the previous tick. */
    var reward: real
    var cumReward: real
    var moves: nat
    var qDict: Table

    constructor ()
      ensures state == None && newState == None && nextWaypoint == Nil && action == Nil
      ensures reward == 0.0 && cumReward == 0.0 && moves == 0 && qDict == map[]
    {
      state, newState, nextWaypoint, action := None, None, Nil, Nil;
      reward, cumReward, moves := 0.0, 0.0, 0;
      qDict := map[];
    }

    /** Starts a trial: the per-trial fields are cleared, while the table
        and the last action of the previous trial are kept. */
    method Reset()
      modifies this
      ensures state == None && newState == None && nextWaypoint == Nil
      ensures moves == 0 && reward == 0.0 && cumReward == 0.0
      ensures qDict == old(qDict) && action == old(action)
    {
      state := None;
      nextWaypoint := Nil;
      moves := 0;
      newState := None;
      reward := 0.0;
      cumReward := 0.0;
    }

    /** `getQvalue`: the stored estimate, or 10.0 for a key never written. */
    function GetQvalue(s: Option<State>, a: Value): (r: real)
      reads this
      ensures (s, a) in qDict ==> r == qDict[(s, a)]
      ensures (s, a) !in qDict ==> r == 10.0
    {
      QValue(qDict, s, a, 10.0)
    }

    /** `getMaxQ`: the largest estimate over the action list, attained by
        some action. */
    function GetMaxQ(s: Option<State>): (r: real)
      reads this
      ensures forall a :: a in ValidActions ==> GetQvalue(s, a) <= r
      ensures exists a :: a in ValidActions && GetQvalue(s, a) == r
    {
      MaxQ(qDict, s, 10.0)
    }

    /** `get_action`: the explored pick below epsilon, otherwise an action
        of maximal estimate; always one of the valid actions. */
    function GetAction(s: Option<State>, draw: real, explore: nat, tie: nat): (a: Value)
      reads this
      ensures a in ValidActions
      ensures draw < epsilon ==> a == Choice(ValidActions, explore)
      ensures epsilon <= draw ==> GetQvalue(s, a) == GetMaxQ(s)
    {
      Policy.GetAction(qDict, 10.0, epsilon, s, draw, explore, tie)
    }

    /** `qlearning`: writes the entry for (s, a) and no other. */
    method QLearning(s: Option<State>, a: Value, nextState: Option<State>, r: real)
      modifies this`qDict
      ensures qDict == Learn(old(qDict), (s, a), r, nextState, alpha, gamma, 10.0)
    {
      var key := (s, a);
      if key !in qDict {
        qDict := qDict[key := 10.0];
      } else {
        qDict := qDict[key := qDict[key] + alpha * (r + gamma * GetMaxQ(nextState) - qDict[key])];
      }
    }

    /** One tick: encode the state, choose and execute an action, learn
        from the previous tick's (state, action, reward) against the new
        state, then make this tick's values the previous ones. */
    method Update(waypoint: Value, inputs: seq<Item>, draw: real, explore: nat, tie: nat, act: Value -> real)
      requires DistinctKeys(inputs)
      modifies this
      ensures nextWaypoint == waypoint
      ensures newState == Some(Encode(inputs, waypoint)) && state == newState
      ensures action == Policy.GetAction(old(qDict), 10.0, epsilon, newState, draw, explore, tie)
      ensures qDict == Learn(old(qDict), (old(state), old(action)), old(reward), newState, alpha, gamma, 10.0)
      ensures reward == act(action) && cumReward == old(cumReward) + reward && moves == old(moves) + 1
      ensures old(state) == None ==> (None, old(action)) in qDict
    {
      nextWaypoint := waypoint;
      newState := Some(Encode(inputs, waypoint));
      var a := GetAction(newState, draw, explore, tie);
      Act(a, act);
    }

    /** The part of a tick after the action is chosen: execute it, learn
        from the previous (state, action, reward) against `newState`, then
        record this tick. */
    method Act(a: Value, act: Value -> real)
      modifies this`action, this`state, this`reward, this`cumReward, this`moves, this`qDict
      ensures qDict == Learn(old(qDict), (old(state), old(action)), old(reward), newState, alpha, gamma, 10.0)
      ensures action == a && state == newState && reward == act(a)
      ensures cumReward == old(cumReward) + reward && moves == old(moves) + 1
    {
      var newReward := act(a);
      // The guard `self.reward != None` always holds: the reward is a
      // number from the constructor on, and reset sets it to 0.
      QLearning(state, action, newState, reward);
      action, state := a, newState;
      reward, cumReward := newReward, cumReward + newReward;
      moves := moves + 1;
    }
  }
}
