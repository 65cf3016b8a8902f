/** The epsilon-greedy action choice of `get_action`: explore with
    probability epsilon, otherwise take an action of maximal estimate,
    breaking ties at random among the maximal indices. The random draws
    are parameters: `draw` is `random.random()`, `explore` and `tie` are
    the picks of the two `random.choice` calls. */
module Policy {
  import opened Domain
  import opened StateEncoding
  import opened ValueTable

  /** `xs.count(x)`: the multiplicity of `x` in `xs`. */
  function Count(xs: seq<real>, x: real): (n: nat)
    ensures n == multiset(xs)[x]
  {
    if xs == [] then 0
    else
      assert xs == xs[..|xs| - 1] + [xs[|xs| - 1]];
      Count(xs[..|xs| - 1], x) + (if xs[|xs| - 1] == x then 1 else 0)
  }

  /** `xs.index(x)`: the first position holding `x`. */
  function IndexOf(xs: seq<real>, x: real): (i: nat)
    requires x in xs
    ensures i < |xs| && xs[i] == x
    ensures forall j :: 0 <= j < i ==> xs[j] != x
  {
    if xs[0] == x then 0 else 1 + IndexOf(xs[1..], x)
  }

  /** `[i for i in range(len(xs)) if xs[i] == x]`. */
  function Positions(xs: seq<real>, x: real): (r: seq<nat>)
    ensures |r| == Count(xs, x)
    ensures forall k :: 0 <= k < |r| ==> r[k] < |xs| && xs[r[k]] == x
    ensures forall i :: 0 <= i < |xs| && xs[i] == x ==> i in r
  {
    if xs == [] then []
    else
      var r0 := Positions(xs[..|xs| - 1], x);
      assert forall i :: 0 <= i < |xs| - 1 ==> xs[..|xs| - 1][i] == xs[i];
      if xs[|xs| - 1] == x then r0 + [|xs| - 1] else r0
  }

  /** The greedy branch of `get_action` on the list of estimates: the
      position of the maximum, drawn among all maximal positions when
      there are several. */
  function GreedyIndex(qs: seq<real>, tie: nat): (i: nat)
    requires |qs| > 0
    ensures i < |qs| && qs[i] == MaxOf(qs)
  {
    var m := MaxOf(qs);
    if Count(qs, m) > 1 then Choice(Positions(qs, m), tie) else IndexOf(qs, m)
  }

  /** Every maximal position is the greedy index for some tie draw. */
  lemma GreedyIndexReachesEveryMax(qs: seq<real>, i: nat)
    requires i < |qs| && qs[i] == MaxOf(qs)
    ensures exists tie: nat :: GreedyIndex(qs, tie) == i
  {
    var m := MaxOf(qs);
    var ps := Positions(qs, m);
    assert i in ps;
    if Count(qs, m) > 1 {
      var k :| 0 <= k < |ps| && ps[k] == i;
      assert GreedyIndex(qs, k) == i;
    } else {
      var j := IndexOf(qs, m);
      assert j in ps;
      AtMostOne(ps, i, j);
      assert GreedyIndex(qs, 0) == i;
    }
  }

  lemma AtMostOne(ps: seq<nat>, i: nat, j: nat)
    requires |ps| <= 1 && i in ps && j in ps
    ensures i == j
  {
  }

  /** `get_action(state)` over the table `q` read with default `v0`. */
  function GetAction(q: Table, v0: real, epsilon: real, s: Option<State>, draw: real, explore: nat, tie: nat): (a: Value)
    ensures a in ValidActions
    ensures draw < epsilon ==> a == Choice(ValidActions, explore)
    ensures epsilon <= draw ==> QValue(q, s, a, v0) == MaxQ(q, s, v0)
  {
    if draw < epsilon then Choice(ValidActions, explore)
    else ValidActions[GreedyIndex(QValues(q, s, v0), tie)]
  }

  /** Exploration can yield every action. */
  lemma ExploreReachesAll(q: Table, v0: real, epsilon: real, s: Option<State>, draw: real, tie: nat)
    requires draw < epsilon
    ensures forall i :: 0 <= i < |ValidActions| ==> GetAction(q, v0, epsilon, s, draw, i, tie) == ValidActions[i]
  {
  }

  /** When one action has a strictly larger estimate than all others, the
      greedy branch returns it whatever the tie draw. */
  lemma GreedyTakesUniqueBest(q: Table, v0: real, epsilon: real, s: Option<State>, draw: real, explore: nat, tie: nat, best: Value)
    requires epsilon <= draw
    requires best in ValidActions
    requires forall a :: a in ValidActions && a != best ==> QValue(q, s, a, v0) < QValue(q, s, best, v0)
    ensures GetAction(q, v0, epsilon, s, draw, explore, tie) == best
  {
  }

  /** Every action of maximal estimate is the greedy choice for some tie
      draw: ties are not broken by enumeration order. */
  lemma GreedyReachesEveryBest(q: Table, v0: real, epsilon: real, s: Option<State>, draw: real, explore: nat, best: Value)
    requires epsilon <= draw
    requires best in ValidActions
    requires QValue(q, s, best, v0) == MaxQ(q, s, v0)
    ensures exists tie: nat :: GetAction(q, v0, epsilon, s, draw, explore, tie) == best
  {
    var qs := QValues(q, s, v0);
    assert MaxQ(q, s, v0) == MaxOf(qs);
    var i := if best == Nil then 0 else if best == Forward then 1 else if best == Left then 2 else 3;
    assert ValidActions[i] == best && qs[i] == MaxOf(qs);
    GreedyIndexReachesEveryMax(qs, i);
    var tie: nat :| GreedyIndex(qs, tie) == i;
    assert GetAction(q, v0, epsilon, s, draw, explore, tie) == best;
  }
}
