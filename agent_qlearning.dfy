/** The Q-learning agent of smartcab/agent_qlearning.py: the table, policy
    and update of agent2.py with default 5.0, run only when the legality
    rule `is_action` allows the waypoint.

    The file refers to names it never defines: `stata` in getMaxQ, `state`
    in the inline action choice of update and `self.nextState` in the
    inline table write. `stata` is read as getMaxQ's own parameter `state`,
    its evident meaning; the other two are explicit parameters of `Update`
    (`lookupState`, `bootstrapState`), not guesses at the intended name. */
module QLearning {
  import opened Domain
  import opened StateEncoding
  import opened ValueTable
  import opened Traffic
  import Policy

  class QLearningAgent {
    const alpha: real := 0.9
    const epsilon: real := 0.95
    const gamma: real := 0.2

    var state: Option<State>
    var newState: Option<State>
    var nextWaypoint: Value
    var action: Value
    var reward: real
    var cumReward: real
    var moves: nat
    var qDict: Table

    constructor ()
      ensures state == None && newState == None && nextWaypoint == Nil && action == Nil
      ensures reward == 0.0 && cumReward == 0.0 && moves == 0 && qDict == map[]
    {
      reward, nextWaypoint, moves := 0.0, Nil, 0;
      qDict := map[];
      state, newState := None, None;
      cumReward, action := 0.0, Nil;
    }

    /** Starts a trial: clears the per-trial fields and the previous action;
        the table and the last reward are kept. */
    method Reset()
      modifies this
      ensures state == None && newState == None && nextWaypoint == Nil && action == Nil
      ensures moves == 0 && cumReward == 0.0
      ensures qDict == old(qDict) && reward == old(reward)
    {
      state := None;
      nextWaypoint := Nil;
      moves := 0;
      newState := None;
      cumReward := 0.0;
      action := Nil;
    }

    /** `getQvalue`: the stored estimate, or 5.0 for a key never written. */
    function GetQvalue(s: Option<State>, a: Value): (r: real)
      reads this
      ensures (s, a) in qDict ==> r == qDict[(s, a)]
      ensures (s, a) !in qDict ==> r == 5.0
    {
      QValue(qDict, s, a, 5.0)
    }

    /** `getMaxQ`: the largest estimate over the action list, attained by
        some action. The source reads the undefined name `stata`; taking it
        to mean the parameter `state`, the estimates are read at `s`. */
    function GetMaxQ(s: Option<State>): (r: real)
      reads this
      ensures forall a :: a in ValidActions ==> GetQvalue(s, a) <= r
      ensures exists a :: a in ValidActions && GetQvalue(s, a) == r
    {
      MaxQ(qDict, s, 5.0)
    }

    /** `get_action`: the explored pick below epsilon, otherwise an action
        of maximal estimate; always one of the valid actions. */
    function GetAction(s: Option<State>, draw: real, explore: nat, tie: nat): (a: Value)
      reads this
      ensures a in ValidActions
      ensures draw < epsilon ==> a == Choice(ValidActions, explore)
      ensures epsilon <= draw ==> GetQvalue(s, a) == GetMaxQ(s)
    {
      Policy.GetAction(qDict, 5.0, epsilon, s, draw, explore, tie)
    }

    /** `qlearning`: writes the entry for (s, a) and no other. */
    method QLearning(s: Option<State>, a: Value, nextState: Option<State>, r: real)
      modifies this`qDict
      ensures qDict == Learn(old(qDict), (s, a), r, nextState, alpha, gamma, 5.0)
    {
      var key := (s, a);
      if key !in qDict {
        qDict := qDict[key := 5.0];
      } else {
        qDict := qDict[key := qDict[key] + alpha * (r + gamma * GetMaxQ(nextState) - qDict[key])];
      }
    }

    /** One tick. The waypoint and the encoded state are always recorded;
        choosing, acting, learning and the bookkeeping happen only when the
        legality rule allows the waypoint. */
    method Update(waypoint: Value, inputs: seq<Item>, draw: real, explore: nat, tie: nat,
                  lookupState: Option<State>, bootstrapState: Option<State>, act: Value -> real)
      requires DistinctKeys(inputs) && Sensed(inputs)
      modifies this
      ensures nextWaypoint == waypoint && newState == Some(Encode(inputs, waypoint))
      ensures !IsAction(waypoint, inputs) ==> unchanged(this`state, this`action, this`reward, this`cumReward, this`moves, this`qDict)
      ensures IsAction(waypoint, inputs) ==>
        && action == old(GetAction(lookupState, draw, explore, tie))
        && qDict == Learn(old(qDict), (old(state), old(action)), old(reward), bootstrapState, alpha, gamma, 5.0)
        && state == newState && reward == act(action)
        && cumReward == old(cumReward) + reward && moves == old(moves) + 1
    {
      var isAction := Observe(waypoint, inputs);
      if isAction {
        var a := GetAction(lookupState, draw, explore, tie);
        Drive(a, bootstrapState, act);
      }
    }

    /** The first half of a tick: record the waypoint, decide `is_action`
        and encode the state. */
    method Observe(waypoint: Value, inputs: seq<Item>) returns (isAction: bool)
      requires DistinctKeys(inputs) && Sensed(inputs)
      modifies this`nextWaypoint, this`newState
      ensures nextWaypoint == waypoint && newState == Some(Encode(inputs, waypoint))
      ensures isAction == IsAction(waypoint, inputs)
    {
      nextWaypoint := waypoint;
      isAction := IsAction(waypoint, inputs);
      newState := Some(Encode(inputs, waypoint));
    }

    /** The block `is_action` guards, after the action is chosen: execute
        it, learn from the previous (state, action, reward), then record
        this tick. `bootstrapState` stands for the undefined
        `self.nextState` the write reads. */
    method Drive(a: Value, bootstrapState: Option<State>, act: Value -> real)
      modifies this`action, this`state, this`reward, this`cumReward, this`moves, this`qDict
      ensures qDict == Learn(old(qDict), (old(state), old(action)), old(reward), bootstrapState, alpha, gamma, 5.0)
      ensures action == a && state == newState && reward == act(a)
      ensures cumReward == old(cumReward) + reward && moves == old(moves) + 1
    {
      var newReward := act(a);
      // `self.reward != None` always holds: the reward is a number from
      // the constructor on. The write that follows in the source repeats
      // the body of qlearning line for line (the call itself is left
      // commented out there), so it is that call here.
      QLearning(state, action, bootstrapState, reward);
      action, state := a, newState;
      reward, cumReward := newReward, cumReward + newReward;
      moves := moves + 1;
    }
  }
}
