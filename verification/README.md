# MADDPG shared replay buffer and coordinator, in Dafny

This project models the data-sharing and scheduling core of a multi-agent
DDPG trainer (`P3_Collaboration_and_Competition/maddpg.py`). It has two parts:

- **`ReplayBuffer`** (module `Replay`). This is a bounded sliding window of joint
  experiences. Each experience is one record per environment step. It holds
  every agent's observation, action, reward, next observation and done flag.
  - `add` appends at the newest end. When the window is full, it evicts the
    oldest record.
  - `sample` draws `batch_size` records without replacement. It then flattens
    the agent dimension, so row `i * num_agents + j` of each of the five outputs
    is agent `j`'s part of the `i`-th drawn record.
  - Rewards and dones come out as one-element rows. Dones are numbered 0 or 1.
- **`MADDPG`** (module `Coordinator`). This owns one agent per index and the
  buffer they all share.
  - `step` always records the joint step first. After that, it lets every agent
    take its learning step, in index order, once per learning pass. This happens
    only when the time step is on the cadence and the buffer now holds more
    than one batch.
  - `act` asks each agent for its action on its own observation.
  - `reset` resets every agent.
  - Agent `x` is built with seed `(x + 1) * random_seed`.

The model is functional. The buffer is an immutable value over `seq`, and
eviction is a suffix of the grown sequence. The pseudo-random draw is a
parameter: `picks` is the sequence of stored positions the generator chose, and
it must be a draw without replacement. Agents are known only through the calls
the coordinator makes on them. Every coordinator operation returns that call
trace (`Call(agent, AgentAct(..) | AgentStep | AgentReset)`). What an agent
answers to `act` is a caller-supplied function `policy(index, observation,
addNoise)`.

Modules:

- `Outcomes` (`outcomes.dfy`): `Result`. It stands for the exceptions the code raises.
- `Layout` (`layout.dfy`): the building blocks of sampling.
  - drawing at distinct positions (`IsDraw`, `Gather`);
  - row-major flattening (`Flatten`, `Offset`).
- `Replay` (`replay.dfy`): the replay buffer.
- `Coordinator` (`coordinator.dfy`): the MADDPG coordinator, its fixed constants
  (`BufferSize = 100000`, `BatchSize = 256`, `LearnUpdates = 1`,
  `UpdateEvery = 1`, gathered as `Defaults`), and multi-step runs.

The model keeps these details of the code's behaviour:

- The code has no size guard inside `sample`. A draw larger than the buffer
  fails inside Python's `random.sample`. The model returns
  `Failure(SampleLargerThanPopulation)` for it.
- A draw of zero records fails when the empty list is stacked (`EmptyBatch`).
- A record with fewer entries than agents fails on indexing (`AgentIndexOutOfRange`).
- `sample` uses the buffer's own `batch_size` and takes no argument.
- Agent seeds are `(x + 1) * random_seed`. They are not distinct when
  `random_seed` is 0 (see `AgentSeedsDistinct`).

## Model

| member | source | states |
|---|---|---|
| Layout.Flatten | P3_Collaboration_and_Competition/maddpg.py:85-89 | stacking per-experience agent rows gives `rows * n` entries, and entry `j` of row `i` lands at position `i * n + j` |
| Layout.FlattenOrigin | P3_Collaboration_and_Competition/maddpg.py:85-89 | conversely, every stacked position `k` holds entry `k % n` of input row `k / n`, so nothing in the output is invented |
| Layout.GatherWithoutReplacement | P3_Collaboration_and_Competition/maddpg.py:81 | drawing at pairwise-distinct positions yields a sub-multiset of the stored records, so no record is drawn more often than it is stored |
| Replay.Create | P3_Collaboration_and_Competition/maddpg.py:61-72 | a new buffer is empty, within capacity, and keeps the agent count, capacity and batch size it was given |
| Replay.Length | P3_Collaboration_and_Competition/maddpg.py:93-95 | the reported length never exceeds the capacity and is zero exactly for an empty buffer |
| Replay.Add | P3_Collaboration_and_Competition/maddpg.py:69-77 | the length becomes `min(old + 1, capacity)`; below capacity the record is appended; at capacity exactly the oldest record drops and the rest keep their order; capacity 0 stays empty; configuration unchanged |
| Replay.AddAllKeepsNewest | P3_Collaboration_and_Competition/maddpg.py:69-77 | after any run of adds the buffer holds exactly the newest `bufferSize` records of the whole history, in insertion order |
| Replay.DoneValue | P3_Collaboration_and_Competition/maddpg.py:89 | a done flag becomes 1 when true and 0 when false, never anything else |
| Replay.Sample | P3_Collaboration_and_Competition/maddpg.py:79-91 | fails exactly when the batch exceeds the stored count, when the batch is empty, or when a drawn record lacks some agent's entry; otherwise all five outputs have `batchSize * numAgents` rows, and row `i * numAgents + j` is agent `j`'s state, action, `[reward]`, next state and `[0/1 done]` of the `i`-th drawn record |
| Replay.SampleWithoutReplacement | P3_Collaboration_and_Competition/maddpg.py:81 | a successful batch is built from `batchSize` records that form a sub-multiset of the buffer's contents |
| Replay.SampleRowOrigin | P3_Collaboration_and_Competition/maddpg.py:85-89 | every output row `k` of a successful batch is agent `k % numAgents` of the stored record at drawn position `picks[k / numAgents]` |
| Coordinator.Create | P3_Collaboration_and_Competition/maddpg.py:18-29 | the coordinator starts with an empty shared buffer sized by the configuration and one agent per index; agent `x` gets seed `(x + 1) * randomSeed` |
| Coordinator.Init | P3_Collaboration_and_Competition/maddpg.py:9-29 | the trainer's coordinator uses capacity 100000 and batch size 256 with the fixed schedule, starts empty, and seeds agent `x` with `(x + 1) * randomSeed` |
| Coordinator.AgentSeedsDistinct | P3_Collaboration_and_Competition/maddpg.py:29 | the derived agent seeds are pairwise distinct if and only if the base seed is nonzero or there is at most one agent |
| Coordinator.LearnSchedule | P3_Collaboration_and_Competition/maddpg.py:43-45 | the learning passes produce `passes * n` calls, and call `p * n + j` is agent `j`'s step, so agents step in index order within every pass |
| Coordinator.LearnScheduleCount | P3_Collaboration_and_Competition/maddpg.py:43-45 | over the learning passes each agent steps exactly `passes` times and no other call is made |
| Coordinator.Step | P3_Collaboration_and_Competition/maddpg.py:31-45 | the joint step is always recorded and nothing else in the coordinator changes; no agent is called unless the time step is on the cadence and the post-add length exceeds the batch size; when both hold, exactly `learnUpdates * numAgents` step calls are made, in agent-index order per pass |
| Coordinator.StepCount | P3_Collaboration_and_Competition/maddpg.py:36-45 | in one coordinator step each agent steps `learnUpdates` times when learning triggers and zero times otherwise |
| Coordinator.WarmUpGate | P3_Collaboration_and_Competition/maddpg.py:33-40 | stated on the buffer before the step, learning triggers if and only if the step is on the cadence, the buffer already held a full batch, and the capacity exceeds the batch size; reaching exactly `batchSize` does not trigger |
| Coordinator.LearningDrawsSucceed | P3_Collaboration_and_Competition/maddpg.py:39-45 | whenever a step makes agents learn, the shared buffer holds more than one batch, so any draw the sampler may make from it (a draw without replacement, which the buffer's size now permits) never fails for lack of records |
| Coordinator.Act | P3_Collaboration_and_Competition/maddpg.py:47-52 | with at least one observation per agent the result has `numAgents` rows, row `i` being agent `i`'s answer on `states[i]` with the same noise flag, which defaults to on when omitted; agents are asked in index order; with fewer observations the agents before the missing one are asked and the call fails at that index |
| Coordinator.Reset | P3_Collaboration_and_Competition/maddpg.py:54-56 | the coordinator, and so the shared buffer, is unchanged, and the calls are one reset per agent in index order |
| Coordinator.ResetEachAgentOnce | P3_Collaboration_and_Competition/maddpg.py:54-56 | a reset calls `reset()` exactly once on each agent and makes no other call |
| Coordinator.RunRecordsEveryStep | P3_Collaboration_and_Competition/maddpg.py:31-33 | over any sequence of coordinator steps the buffer ends with the newest `bufferSize` recorded experiences, whether or not learning happened |
| Coordinator.WarmRunLearnsEveryStep | P3_Collaboration_and_Competition/maddpg.py:9-45 | with the fixed schedule (cadence 1, one pass) and a buffer that already holds a batch and can hold more, over any run of coordinator steps each agent steps exactly once per coordinator step, whatever the time steps are |

## Left out

- Tensor conversion (`torch.from_numpy`, `.float()`, `.to(device)`, device selection, `np.zeros`) is left out. It is framework plumbing. Outputs are sequences of rows.
- Numeric values are left out. Observations, actions and rewards are opaque type parameters and only their positions matter.
- Width checks on per-agent vectors are not modelled, because the vectors are opaque. The code does not validate widths either; `np.vstack` would reject mismatched widths.
- Replay.Sample: with zero agents, numpy stacks `batchSize` empty rows, while the model yields no rows. This degenerate configuration is not reproduced.
- Replay.Sample: the draw's uniform distribution and Python's generator are not modelled. The model covers which draws are possible: any `batchSize` pairwise-distinct positions.
- Seeding is left out because it is process-global and returns nothing. `Replay.Create` takes the seed and ignores it.
- The `e is not None` filter in `sample` is left out. The buffer stores only experience values, so the filter never drops a record.
- The `Agent` collaborator's networks, learning and noise are left out, because its source is not part of this model. Its `step` and `reset` appear only as calls in the trace.
- Coordinator.Act: an agent's answer is one fixed `policy` of (index, observation, flag). Exploration noise that depends on the agent's earlier calls is not modelled.
- Coordinator.Act: the shape of an agent's action is not checked. Writing it into the `num_agents x action_size` array could raise in numpy.
- Failures raised inside an agent are not modelled. The code propagates them unhandled.
- The coordinator's mutation of itself is modelled as returning a new value. The buffer that the agents share by reference is the coordinator's `memory` field, which is what their draws read (`LearningDrawsSucceed`).
- A cadence of 0 would raise `ZeroDivisionError`. The configuration requires a positive cadence; the code's constant is 1.
- Negative capacities and negative batch sizes cannot be expressed, because the sizes are natural numbers.
- Only boolean done flags are modelled; the done field is typed `bool`.
