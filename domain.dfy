/** Values shared by the three smartcab agents: the readings of a percept,
    the route planner's waypoint and the actions the environment accepts. */
module Domain {

  datatype Option<T> = None | Some(value: T)

  /** Every value a percept entry, a waypoint or an action can hold:
      Python's None (`Nil`) and the strings the simulator uses.
      `Straight` appears only because the legality rule tests for it. */
  datatype Value = Nil | Red | Green | Forward | Left | Right | Straight

  /** Environment.valid_actions, in its order; None is itself an action. */
  const ValidActions: seq<Value> := [Nil, Forward, Left, Right]

  /** random.choice(xs): `pick` stands for the random draw, taken modulo
      the length so that every index of `xs` is a possible outcome. */
  function Choice<T>(xs: seq<T>, pick: nat): (r: T)
    requires |xs| > 0
    ensures r in xs
    ensures pick < |xs| ==> r == xs[pick]
  {
    xs[pick % |xs|]
  }
}
