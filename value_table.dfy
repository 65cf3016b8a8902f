/** The sparse Q-table `qDict` of the learning agents: a dictionary from
    (state, action) to a real estimate, read with a default `v0` for keys
    never written, and the one-step Q-learning write of `qlearning`.
    agent2.py uses v0 = 10.0, agent_qlearning.py v0 = 5.0. */
module ValueTable {
  import opened Domain
  import opened StateEncoding

  /** (state, action); the state is None before the first tick of a trial. */
  type Key = (Option<State>, Value)
  type Table = map<Key, real>

  /** `qDict.get((state, action), v0)`: no entry is created by a read. */
  function QValue(q: Table, s: Option<State>, a: Value, v0: real): (r: real)
    ensures (s, a) in q ==> r == q[(s, a)]
    ensures (s, a) !in q ==> r == v0
  {
    if (s, a) in q then q[(s, a)] else v0
  }

  /** `[getQvalue(state, a) for a in possible_actions]`. */
  function QValues(q: Table, s: Option<State>, v0: real): (qs: seq<real>)
    ensures |qs| == |ValidActions|
    ensures forall i :: 0 <= i < |qs| ==> qs[i] == QValue(q, s, ValidActions[i], v0)
  {
    seq(|ValidActions|, i requires 0 <= i < |ValidActions| => QValue(q, s, ValidActions[i], v0))
  }

  /** Python's `max` on a non-empty list, scanning left to right. */
  function MaxOf(xs: seq<real>): (m: real)
    requires |xs| > 0
    ensures m in xs
    ensures forall i :: 0 <= i < |xs| ==> xs[i] <= m
  {
    if |xs| == 1 then xs[0]
    else
      var m := MaxOf(xs[..|xs| - 1]);
      if xs[|xs| - 1] > m then xs[|xs| - 1] else m
  }

  /** `getMaxQ(state)`: the best estimate over the fixed action list. */
  function MaxQ(q: Table, s: Option<State>, v0: real): (r: real)
    ensures forall a :: a in ValidActions ==> QValue(q, s, a, v0) <= r
    ensures exists a :: a in ValidActions && QValue(q, s, a, v0) == r
  {
    var qs := QValues(q, s, v0);
    var r := MaxOf(qs);
    assert forall i :: 0 <= i < |ValidActions| ==> qs[i] == QValue(q, s, ValidActions[i], v0);
    r
  }

  /** The temporal-difference target `reward + gamma * getMaxQ(nextState)`. */
  function Target(q: Table, reward: real, next: Option<State>, gamma: real, v0: real): real
  {
    reward + gamma * MaxQ(q, next, v0)
  }

  /** `qlearning(state, action, nextState, reward)`: a key seen for the
      first time is set to `v0` whatever the reward; a seen key moves by
      `alpha` times the temporal-difference error. */
  function Learn(q: Table, key: Key, reward: real, next: Option<State>, alpha: real, gamma: real, v0: real): (r: Table)
    ensures r.Keys == q.Keys + {key}
    ensures forall k :: k in q && k != key ==> r[k] == q[k]
    ensures key !in q ==> r[key] == v0
    ensures key in q ==> r[key] - q[key] == alpha * (Target(q, reward, next, gamma, v0) - q[key])
  {
    if key !in q then q[key := v0]
    else q[key := q[key] + alpha * (Target(q, reward, next, gamma, v0) - q[key])]
  }

  /** A state with no entry reads `v0` for every action, and so does its
      best estimate. */
  lemma UnwrittenStateReadsDefault(q: Table, s: Option<State>, v0: real)
    requires forall a :: (s, a) !in q
    ensures forall a :: QValue(q, s, a, v0) == v0
    ensures MaxQ(q, s, v0) == v0
  {
  }

  /** After an update the key is present, so later reads no longer see the
      default; every other read is unchanged. */
  lemma LearnReads(q: Table, key: Key, reward: real, next: Option<State>, alpha: real, gamma: real, v0: real)
    ensures var r := Learn(q, key, reward, next, alpha, gamma, v0);
      forall s, a :: (s, a) != key ==> QValue(r, s, a, v0) == QValue(q, s, a, v0)
  {
  }

  /** The first visit ignores the transition: reward and next state do
      not matter, and the table reads exactly as before. */
  lemma LearnFirstVisit(q: Table, key: Key, r1: real, n1: Option<State>, r2: real, n2: Option<State>, alpha: real, gamma: real, v0: real)
    requires key !in q
    ensures Learn(q, key, r1, n1, alpha, gamma, v0) == Learn(q, key, r2, n2, alpha, gamma, v0)
    ensures forall s, a :: QValue(Learn(q, key, r1, n1, alpha, gamma, v0), s, a, v0) == QValue(q, s, a, v0)
  {
  }

  /** With a learning rate of zero no read of the table changes (an unseen
      key is still inserted, holding the default it already read as). */
  lemma LearnZeroRate(q: Table, key: Key, reward: real, next: Option<State>, gamma: real, v0: real)
    ensures forall s, a :: QValue(Learn(q, key, reward, next, 0.0, gamma, v0), s, a, v0) == QValue(q, s, a, v0)
  {
  }

  /** For 0 <= alpha <= 1 a seen entry moves towards the target
      `reward + gamma * maxQ(next)` without overshooting it; at alpha = 1
      it becomes the target. */
  lemma LearnTowardsTarget(q: Table, key: Key, reward: real, next: Option<State>, alpha: real, gamma: real, v0: real)
    requires key in q
    requires 0.0 <= alpha <= 1.0
    ensures var target := Target(q, reward, next, gamma, v0);
      var v := Learn(q, key, reward, next, alpha, gamma, v0)[key];
      && (q[key] <= target ==> q[key] <= v <= target)
      && (target <= q[key] ==> target <= v <= q[key])
      && (alpha == 1.0 ==> v == target)
  {
    var target := Target(q, reward, next, gamma, v0);
    var v := Learn(q, key, reward, next, alpha, gamma, v0)[key];
    ScaledStep(alpha, q[key], target, v);
  }

  /** A step of `alpha` times the distance from `x` to `t`, with
      0 <= alpha <= 1, ends between `x` and `t`. */
  lemma ScaledStep(alpha: real, x: real, t: real, v: real)
    requires 0.0 <= alpha <= 1.0
    requires v - x == alpha * (t - x)
    ensures x <= t ==> x <= v <= t
    ensures t <= x ==> t <= v <= x
    ensures alpha == 1.0 ==> v == t
  {
    var d := t - x;
    var c := 1.0 - alpha;
    assert c * d == d - alpha * d;
    if d >= 0.0 {
      MulNonNegative(alpha, d);
      MulNonNegative(c, d);
    } else {
      MulNonNegative(alpha, -d);
      MulNonNegative(c, -d);
      assert alpha * (-d) == -(alpha * d) && c * (-d) == -(c * d);
    }
  }

  lemma MulNonNegative(x: real, y: real)
    requires x >= 0.0 && y >= 0.0
    ensures x * y >= 0.0
  {
  }
}
