# smartcab agents: per-tick decision and learning, in Dafny

smartcab is a grid-world driving simulator. A "smartcab" agent is asked on
every tick (`update`) for an action. It is given three things: the route
planner's next waypoint, a percept dictionary (`light`, `oncoming`, `left`,
`right`) and a reward from the environment for the action it takes. This
project models the three agents that make that decision:

- `agent2.py`, the working tabular Q-learning agent (module `Agent2`).
  - It keeps a sparse Q-table `qDict` keyed by (state, action). A read
    defaults to 10.0 and does not insert the key.
  - It chooses epsilon-greedily, breaking ties at random among the maximal
    actions.
  - It learns one tick late: each tick updates the *previous* (state,
    action, reward) against the state just observed.
- `agent_qlearning.py`, the same learner with default 5.0 (module
  `QLearning`). A traffic-legality rule, `is_action`, gates its whole
  act/learn/bookkeeping block.
- `agent.py`, the baseline (module `Baseline`). It takes a random action
  when `is_action` allows the waypoint, and None otherwise. It sums its
  rewards over all trials.

The shared logic lives in value modules:

- `Domain` holds the percept values, the actions and `random.choice`.
- `StateEncoding` builds the state key: the percept plus `next_waypoint`,
  as a tuple of (key, value) pairs sorted by key.
- `ValueTable` holds the table reads, `getMaxQ` and the `qlearning`
  write.
- `Policy` holds `get_action`.
- `Traffic` holds the `is_action` rule.

The agents are classes whose fields the methods update, as in the source.

Modelling choices:

- Python's None and the simulator's strings form one enumeration, `Value`.
  None is itself one of the valid actions.
- A dictionary is its list of items, with distinct keys, in iteration order.
- Q-values, rates and rewards are `real`.
- Random draws are explicit parameters:
  - `draw` is `random.random()`.
  - `explore`, `tie` and `pick` are the outcomes of the `random.choice`
    calls.
- `env.act` is a function parameter `act`.
- The planner's waypoint and `env.sense` become the parameters `waypoint`
  and `inputs`.

## Model

| member | source | states |
|---|---|---|
| Domain.Choice | smartcab/smartcab/agent2.py:55 | `random.choice` returns a member of the list, and every position of the list is the outcome of some draw |
| StateEncoding.Get | smartcab/smartcab/agent_qlearning.py:83-88 | `inputs[k]` for a present key is the value paired with `k` in the dictionary |
| StateEncoding.SetItem | smartcab/smartcab/agent2.py:102 | `d[k] = v` keeps the keys distinct, and its pairs are the old pairs without key `k`, plus `(k, v)` |
| StateEncoding.KeyLess | smartcab/smartcab/agent2.py:103 | Python's `<` on the string keys compared by `sorted`: a proper prefix sorts first, and no string sorts before an equal one |
| StateEncoding.KeyLessIrreflexive | smartcab/smartcab/agent2.py:103 | no string sorts before itself under Python's string order |
| StateEncoding.KeyLessTransitive | smartcab/smartcab/agent2.py:103 | Python's string order is transitive |
| StateEncoding.KeyLessTotal | smartcab/smartcab/agent2.py:103 | of two different strings, one sorts before the other |
| StateEncoding.Insert | smartcab/smartcab/agent2.py:103 | one insertion step of the sort adds exactly one item |
| StateEncoding.SortByKey | smartcab/smartcab/agent2.py:103 | `sorted(items)` keeps the number of items (that it is a permutation in key order is `SortByKeySorted`) |
| StateEncoding.InsertSorted | smartcab/smartcab/agent2.py:103 | inserting an item with a fresh key into a key-sorted list keeps it sorted, and adds exactly that item |
| StateEncoding.SortByKeySorted | smartcab/smartcab/agent2.py:103 | `sorted(items)` with distinct keys is ordered by key and is a permutation of the items |
| StateEncoding.Encode | smartcab/smartcab/agent2.py:101-103 | the state is sorted by key, and holds exactly the percept's pairs other than `next_waypoint`, plus `('next_waypoint', waypoint)` |
| StateEncoding.SortedUnique | smartcab/smartcab/agent.py:45-47 | two key-sorted item lists with the same pairs are equal |
| StateEncoding.EncodeOrderIndependent | smartcab/smartcab/agent.py:45-47 | two percepts with the same pairs encode to the same state, whatever their construction order |
| StateEncoding.EncodeSeparatesWaypoints | smartcab/smartcab/agent2.py:101-103 | the same percept with different waypoints gives different states |
| Traffic.IsAction | smartcab/smartcab/agent_qlearning.py:82-89 | the `is_action` chain: a waypoint of None or 'forward' is always allowed, and on green only a left turn can be refused |
| Traffic.IsActionCases | smartcab/smartcab/agent_qlearning.py:82-89 | `is_action` is false exactly in three cases: right on red with left traffic going forward; straight on red; left on red or with oncoming traffic going forward or right |
| Traffic.GreenClearAllowsAll | smartcab/smartcab/agent.py:30-37 | on green with no oncoming traffic every waypoint is allowed |
| Traffic.RedLight | smartcab/smartcab/agent.py:30-37 | on red, left and straight are refused, and None and forward are allowed |
| Traffic.GetUnique | smartcab/smartcab/agent.py:31-36 | the value read for a key is the one paired with it, however the dictionary was built |
| Traffic.IsActionOrderIndependent | smartcab/smartcab/agent.py:30-37 | two percepts with the same pairs get the same `is_action` verdict |
| ValueTable.QValue | smartcab/smartcab/agent2.py:44 | `qDict.get((s, a), v0)`: the stored value when the key is present, the default otherwise |
| ValueTable.QValues | smartcab/smartcab/agent2.py:47 | `[getQvalue(s, a) for a in possible_actions]`: one estimate per valid action, in the order of the action list |
| ValueTable.MaxOf | smartcab/smartcab/agent2.py:48 | `max(q)` is an element of `q` and bounds every element |
| ValueTable.MaxQ | smartcab/smartcab/agent2.py:46-48 | `getMaxQ(s)` bounds every action's estimate at `s`, and some action attains it |
| ValueTable.Learn | smartcab/smartcab/agent2.py:68-77 | after `qlearning` the key is present and no other entry changes. An unseen key gets the default, whatever the reward. A seen key moves by alpha times (reward + gamma·getMaxQ(next) − Q) |
| ValueTable.UnwrittenStateReadsDefault | smartcab/smartcab/agent2.py:43-48 | a state with no entries reads the default for every action, and so does its `getMaxQ` |
| ValueTable.LearnReads | smartcab/smartcab/agent2.py:72-77 | after `qlearning`, reads of every other (state, action) are unchanged |
| ValueTable.LearnFirstVisit | smartcab/smartcab/agent_qlearning.py:69-71 | a first visit ignores the reward and the next state, and leaves every read as it was |
| ValueTable.LearnZeroRate | smartcab/smartcab/agent_qlearning.py:64-73 | with alpha = 0 no read of the table changes |
| ValueTable.LearnTowardsTarget | smartcab/smartcab/agent_qlearning.py:72-73 | for 0 ≤ alpha ≤ 1 a seen entry moves towards the target reward + gamma·getMaxQ(next) without passing it, and reaches it at alpha = 1 |
| ValueTable.ScaledStep | smartcab/smartcab/agent_qlearning.py:73 | a step of alpha times the distance to a target, with 0 ≤ alpha ≤ 1, lands between the start and the target |
| Policy.Count | smartcab/smartcab/agent2.py:58 | `q.count(m)` is the multiplicity of `m` in `q` |
| Policy.IndexOf | smartcab/smartcab/agent2.py:63 | `q.index(m)` is the first position holding `m` |
| Policy.Positions | smartcab/smartcab/agent2.py:59 | `best_actions` lists exactly the positions holding `m`, and has `q.count(m)` entries |
| Policy.GreedyIndex | smartcab/smartcab/agent2.py:57-63 | the greedy branch picks a position that holds the maximum |
| Policy.GreedyIndexReachesEveryMax | smartcab/smartcab/agent2.py:58-63 | every position holding the maximum is picked for some tie draw |
| Policy.GetAction | smartcab/smartcab/agent2.py:50-66 | the action is always a valid action. Below epsilon it is the explored choice. Otherwise its estimate equals `getMaxQ(state)` |
| Policy.ExploreReachesAll | smartcab/smartcab/agent2.py:54-55 | exploration can return every valid action |
| Policy.GreedyTakesUniqueBest | smartcab/smartcab/agent2.py:57-64 | when one action has the strictly largest estimate, the greedy branch returns it whatever the tie draw |
| Policy.GreedyReachesEveryBest | smartcab/smartcab/agent2.py:58-61 | every action of maximal estimate is the greedy choice for some tie draw |
| Agent2.LearningAgent.constructor | smartcab/smartcab/agent2.py:9-27 | fields start empty: no state, action None, zero reward, sum and moves, empty table |
| Agent2.LearningAgent.Reset | smartcab/smartcab/agent2.py:30-41 | `reset` clears the states and the waypoint, and zeroes moves, reward and the reward sum. It keeps the table and the last action |
| Agent2.LearningAgent.GetQvalue | smartcab/smartcab/agent2.py:43-44 | `getQvalue` is the stored value if present and exactly 10.0 otherwise, and it does not write the table |
| Agent2.LearningAgent.GetMaxQ | smartcab/smartcab/agent2.py:46-48 | `getMaxQ` bounds every action's `getQvalue` and equals one of them |
| Agent2.LearningAgent.GetAction | smartcab/smartcab/agent2.py:50-66 | `get_action` returns a valid action: below epsilon the explored `random.choice` pick, otherwise one whose `getQvalue` equals `getMaxQ` |
| Agent2.LearningAgent.QLearning | smartcab/smartcab/agent2.py:68-77 | `qlearning` leaves the table as `Learn` with default 10.0 and the agent's alpha and gamma |
| Agent2.LearningAgent.Update | smartcab/smartcab/agent2.py:79-122 | a tick records the waypoint and the encoded state, and chooses the action with the table as it was. It learns from the previous (state, action, reward) against the new state, then makes this tick's state, action and reward the current ones, adds the reward to the sum and counts one move. After a reset the update lands on the key (None, last action) |
| Agent2.LearningAgent.Act | smartcab/smartcab/agent2.py:113-122 | executes the chosen action, writes the previous triple into the table, and advances the bookkeeping |
| QLearning.QLearningAgent.constructor | smartcab/smartcab/agent_qlearning.py:9-28 | fields start empty: no state, action None, zero reward, sum and moves, empty table |
| QLearning.QLearningAgent.Reset | smartcab/smartcab/agent_qlearning.py:31-40 | `reset` clears the states, the waypoint and the action, and zeroes moves and the sum. It keeps the table and the last reward |
| QLearning.QLearningAgent.GetQvalue | smartcab/smartcab/agent_qlearning.py:42-43 | `getQvalue` is the stored value if present and exactly 5.0 otherwise, and it does not write the table |
| QLearning.QLearningAgent.GetMaxQ | smartcab/smartcab/agent_qlearning.py:45-47 | `getMaxQ` bounds every action's `getQvalue` and equals one of them |
| QLearning.QLearningAgent.GetAction | smartcab/smartcab/agent_qlearning.py:49-62 | `get_action` returns a valid action: below epsilon the explored `random.choice` pick, otherwise one whose `getQvalue` equals `getMaxQ` |
| QLearning.QLearningAgent.QLearning | smartcab/smartcab/agent_qlearning.py:64-73 | `qlearning` leaves the table as `Learn` with default 5.0 and the agent's alpha and gamma |
| QLearning.QLearningAgent.Update | smartcab/smartcab/agent_qlearning.py:75-125 | a tick always records the waypoint and the encoded state. When `is_action` is false, state, action, reward, sum, moves and table are unchanged. When it is true, the action is `get_action` read at `lookupState` (the undefined `state` of line 104) on the table as it was; the table is `Learn` of the previous (state, action, reward) with default 5.0, bootstrapped at `bootstrapState` (the undefined `self.nextState` of line 119); then state, action and reward become this tick's, the sum grows by the reward and one move is counted. agent2 instead reads both at the new state |
| QLearning.QLearningAgent.Observe | smartcab/smartcab/agent_qlearning.py:77-95 | records the waypoint, decides `is_action` and encodes the state |
| QLearning.QLearningAgent.Drive | smartcab/smartcab/agent_qlearning.py:112-125 | executes the chosen action, applies the inline table write to the previous triple, and advances the bookkeeping |
| Baseline.LearningAgent.constructor | smartcab/smartcab/agent.py:9-15 | no state, no waypoint, reward sum 0 |
| Baseline.LearningAgent.Reset | smartcab/smartcab/agent.py:17-21 | `reset` clears state and waypoint, and keeps the reward sum across trials |
| Baseline.LearningAgent.Update | smartcab/smartcab/agent.py:23-51 | the action is a valid action. It is None when `is_action` is false, and the random choice when it is true. The state is the encoded percept, and the reward sum grows by exactly what `act` returns, None action included |

## Left out

- `run()`, `Simulator`, `Environment` and `RoutePlanner` are not part of
  this model. Three of their calls become parameters:
  - `planner.next_waypoint()` is `waypoint`.
  - `env.sense` is `inputs`.
  - `env.act` is `act`.
- Randomness is a parameter: `random.random()` is a real draw, and
  `random.choice` an index pick. That the draws are uniform cannot be
  stated.
- IEEE floating point is not modelled. Q-values, alpha, gamma, epsilon and
  rewards are exact reals. The integer 0 the sources store as the initial
  reward is the real 0.
- The `deadline` reads, `color`, the debug `print` lines and the
  commented-out code are left out. They do not affect the state.
- agent_qlearning.py would not run as written:
  - `getMaxQ` reads the undefined name `stata` (line 46).
  - The inline choice reads the undefined `state` (line 104).
  - The inline write reads the undefined `self.nextState` (line 119).
  - Its tab/space indentation would place the methods from line 42 inside
    `reset`.
  The model does not reproduce these failures. For `stata` it does guess:
  `getMaxQ` reads the estimates at its own parameter `state`, the evident
  intent. The other two names are not guessed; the states they would
  read are the explicit parameters `lookupState` and `bootstrapState`.
- QLearning.QLearningAgent.Drive: the inline write at
  agent_qlearning.py:114-119 repeats the body of `qlearning` and is
  modelled as that call (the source leaves the call commented out at line
  120).
- Python 2's dictionary iteration order is not modelled. A percept is any
  item order with distinct keys, and the order-independence lemmas cover
  every order.
- `sorted` compares whole (key, value) pairs. The model sorts by key only,
  which gives the same order because the keys of a dictionary are distinct.
- The legality rule reads `light`, `left` and `oncoming` only on some
  branches: the `and`/`elif` chain short-circuits, so with a waypoint of
  None or 'forward' no key is read, `left` is read only for 'right' on red,
  and `oncoming` only for 'left' when the light is not red. The model
  requires all three keys in every percept (`Sensed`), since `env.sense`
  always supplies them; a percept lacking one, and the `KeyError` some
  branches would then raise, is not modelled.
- `update` adds `next_waypoint` to the caller's `inputs` dictionary in
  place. The model builds the new state as a value and does not model that
  aliasing.
- Agent2.LearningAgent.constructor: the source's `__init__` never sets
  `new_state` (only `reset` does); the model starts it at None.
- The source's first visit to a key stores the default and ignores the
  reward and the next state. The model follows that code.
- With alpha = 0 an unseen key is still inserted (with the default it
  already read as), so only the reads are unchanged.
- The baseline can also draw the action None when `is_action` holds, since
  None is one of the valid actions. The model therefore states "not
  allowed ⇒ None" and "allowed ⇒ the random choice", not an equivalence.
- The legality rule tests for the waypoint `'straight'`, which the model
  keeps as a value. The route planner that would or would not produce it
  is not part of this model.
