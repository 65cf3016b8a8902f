/** The traffic-legality rule (`is_action`) that gates the baseline agent
    and the Q-learning agent: whether the waypoint the route planner
    proposes may be taken under the sensed light and traffic. */
module Traffic {
  import opened Domain
  import opened StateEncoding

  /** The percept carries the readings the rule consults. */
  predicate Sensed(inputs: seq<Item>)
  {
    HasKey(inputs, "light") && HasKey(inputs, "oncoming") && HasKey(inputs, "left")
  }

  /** `is_action`, decided by the same if/elif chain as the agents. Only
      turns and going straight are ever refused, and on green only a left
      turn can be. */
  function IsAction(waypoint: Value, inputs: seq<Item>): (allowed: bool)
    requires Sensed(inputs)
    ensures waypoint == Nil || waypoint == Forward ==> allowed
    ensures Get(inputs, "light") == Green && waypoint != Left ==> allowed
  {
    if waypoint == Right && Get(inputs, "light") == Red && Get(inputs, "left") == Forward then false
    else if waypoint == Straight && Get(inputs, "light") == Red then false
    else if waypoint == Left then
      !(Get(inputs, "light") == Red || Get(inputs, "oncoming") == Forward || Get(inputs, "oncoming") == Right)
    else true
  }

  /** The rule forbids exactly three situations: a right turn on red with
      traffic from the left going forward, going straight on red, and a
      left turn on red or against oncoming traffic going forward or right. */
  lemma IsActionCases(waypoint: Value, inputs: seq<Item>)
    requires Sensed(inputs)
    ensures !IsAction(waypoint, inputs) <==>
      || (waypoint == Right && Get(inputs, "light") == Red && Get(inputs, "left") == Forward)
      || (waypoint == Straight && Get(inputs, "light") == Red)
      || (waypoint == Left && (Get(inputs, "light") == Red || Get(inputs, "oncoming") in [Forward, Right]))
  {
  }

  /** On a green light with no oncoming traffic every waypoint is allowed. */
  lemma GreenClearAllowsAll(waypoint: Value, inputs: seq<Item>)
    requires Sensed(inputs)
    requires Get(inputs, "light") == Green && Get(inputs, "oncoming") == Nil
    ensures IsAction(waypoint, inputs)
  {
  }

  /** On red, a left turn and going straight are never allowed, while a
      waypoint of None or 'forward' always is. */
  lemma RedLight(inputs: seq<Item>)
    requires Sensed(inputs)
    requires Get(inputs, "light") == Red
    ensures !IsAction(Left, inputs) && !IsAction(Straight, inputs)
    ensures IsAction(Nil, inputs) && IsAction(Forward, inputs)
  {
  }

  /** The value read for a key does not depend on how the dictionary was
      built, so neither does the rule. */
  lemma {:induction false} GetUnique(items: seq<Item>, k: string, v: Value)
    requires DistinctKeys(items)
    requires (k, v) in items
    ensures HasKey(items, k) && Get(items, k) == v
  {
    var i :| 0 <= i < |items| && items[i] == (k, v);
    if items[0].0 != k {
      assert items[1..][i - 1] == (k, v);
      GetUnique(items[1..], k, v);
    }
  }

  lemma IsActionOrderIndependent(waypoint: Value, in1: seq<Item>, in2: seq<Item>)
    requires DistinctKeys(in1) && DistinctKeys(in2) && Sensed(in1)
    requires forall p :: p in in1 <==> p in in2
    ensures Sensed(in2) && IsAction(waypoint, in1) == IsAction(waypoint, in2)
  {
    GetUnique(in2, "light", Get(in1, "light"));
    GetUnique(in2, "oncoming", Get(in1, "oncoming"));
    GetUnique(in2, "left", Get(in1, "left"));
  }
}
