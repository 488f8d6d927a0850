/**
 The MADDPG coordinator: it owns one agent per index and the replay buffer they
 all learn from, records every joint step in that buffer, and on a fixed
 schedule asks every agent to take its own learning step.

 An agent is known only through the calls the coordinator makes on it
 (`act`, `step`, `reset`); every operation returns the calls it made, in order.
 What an agent answers to `act` is supplied by the caller as `policy`.
 */
module Coordinator {
  import opened Outcomes
  import opened Layout
  import opened Replay

  /** Capacity of the shared replay buffer. */
  const BufferSize: nat := 100000
  /** Experiences per draw, and the warm-up threshold for learning. */
  const BatchSize: nat := 256
  /** Learning passes over all agents each time learning triggers. */
  const LearnUpdates: nat := 1
  /** Learning may trigger only on time steps that are multiples of this. */
  const UpdateEvery: nat := 1

  /** The four schedule constants as one record. */
  datatype Config = Config(bufferSize: nat, batchSize: nat, learnUpdates: nat, updateEvery: nat)

  /** The coordinator's fixed configuration. */
  const Defaults := Config(BufferSize, BatchSize, LearnUpdates, UpdateEvery)

  /** The arguments an agent is constructed with, besides the shared buffer. */
  datatype AgentSetup = AgentSetup(stateSize: nat, actionSize: nat, seed: int)

  /** A call on one agent. */
  datatype Op<S> = AgentAct(observation: S, addNoise: bool) | AgentStep | AgentReset
  datatype Call<S> = Call(agent: nat, op: Op<S>)

  /** `act` fails when there is no observation for some agent. */
  datatype ActError = MissingObservation(agent: nat)

  datatype Maddpg<S, A, R> = Maddpg(
    config: Config,
    seed: int,
    numAgents: nat,
    stateSize: nat,
    actionSize: nat,
    memory: ReplayBuffer<S, A, R>,
    agents: seq<AgentSetup>)
  {
    /** The buffer is the one built from the configuration, and there is one agent per index. */
    predicate Valid() {
      && 0 < config.updateEvery
      && memory.Valid()
      && memory.numAgents == numAgents
      && memory.bufferSize == config.bufferSize
      && memory.batchSize == config.batchSize
      && |agents| == numAgents
    }
  }

  /** The seed agent `x` is built with. */
  function AgentSeed(x: nat, randomSeed: int): int {
    (x + 1) * randomSeed
  }

  /** A coordinator with an empty shared buffer and `numAgents` freshly seeded agents. */
  function Create<S, A, R>(config: Config, numAgents: nat, stateSize: nat, actionSize: nat,
                           randomSeed: int): (c: Maddpg<S, A, R>)
    requires 0 < config.updateEvery
    ensures c.Valid() && c.config == config && c.seed == randomSeed
    ensures c.numAgents == numAgents && c.stateSize == stateSize && c.actionSize == actionSize
    ensures c.memory.memory == []
    ensures forall x :: 0 <= x < numAgents ==>
              c.agents[x] == AgentSetup(stateSize, actionSize, (x + 1) * randomSeed)
  {
    var memory := Replay.Create(numAgents, config.bufferSize, config.batchSize, randomSeed);
    var agents := seq(numAgents, x requires 0 <= x < numAgents =>
                    AgentSetup(stateSize, actionSize, AgentSeed(x, randomSeed)));
    Maddpg(config, randomSeed, numAgents, stateSize, actionSize, memory, agents)
  }

  /** The coordinator as the trainer builds it, with the fixed configuration. */
  function Init<S, A, R>(numAgents: nat, stateSize: nat, actionSize: nat, randomSeed: int)
    : (c: Maddpg<S, A, R>)
    ensures c.Valid() && c.config == Defaults && c.memory.memory == []
    ensures c.memory.bufferSize == 100000 && c.memory.batchSize == 256
    ensures |c.agents| == numAgents
    ensures forall x :: 0 <= x < numAgents ==> c.agents[x].seed == (x + 1) * randomSeed
  {
    Create(Defaults, numAgents, stateSize, actionSize, randomSeed)
  }

  /**
   The derived seeds are pairwise distinct exactly when the base seed is not
   zero or there is at most one agent: a zero base seed gives every agent seed 0.
   */
  lemma AgentSeedsDistinct(numAgents: nat, randomSeed: int)
    ensures (forall x, y :: 0 <= x < y < numAgents ==> AgentSeed(x, randomSeed) != AgentSeed(y, randomSeed))
            <==> (randomSeed != 0 || numAgents <= 1)
  {
    if randomSeed != 0 {
      forall x: nat, y: nat | x < y < numAgents
        ensures AgentSeed(x, randomSeed) != AgentSeed(y, randomSeed)
      {
        assert AgentSeed(y, randomSeed) - AgentSeed(x, randomSeed) == (y - x) * randomSeed;
      }
    } else if numAgents > 1 {
      assert AgentSeed(0, randomSeed) == AgentSeed(1, randomSeed);
    }
  }

  /** The calls `Call(0, op)`, ..., `Call(n - 1, op)`: one per agent, in index order. */
  function Round<S>(n: nat, op: Op<S>): (calls: seq<Call<S>>)
    ensures |calls| == n
    ensures forall j :: 0 <= j < n ==> calls[j] == Call(j, op)
  {
    seq(n, j requires 0 <= j < n => Call(j, op))
  }

  /** Appending `x` adds one occurrence of `x` and of nothing else. */
  lemma CountSnoc<T>(s: seq<T>, x: T, y: T)
    ensures multiset(s + [x])[y] == multiset(s)[y] + if x == y then 1 else 0
  {
    assert multiset(s + [x]) == multiset(s) + multiset{x};
  }

  /** A round addresses each of the `n` agents exactly once and nobody else. */
  lemma {:induction false} RoundCount<S>(n: nat, op: Op<S>, call: Call<S>)
    ensures multiset(Round(n, op))[call] == if call.op == op && call.agent < n then 1 else 0
  {
    if n == 0 {
      assert Round(n, op) == [];
    } else {
      var prefix := Round(n - 1, op);
      var last := Call(n - 1, op);
      assert Round(n, op) == prefix + [last];
      CountSnoc(prefix, last, call);
      RoundCount(n - 1, op, call);
      if call.op == op && call.agent == n - 1 {
        assert last == call;
      } else {
        assert last != call;
      }
    }
  }

  /** `passes` rounds of learning steps, one after another. */
  function LearnSchedule<S>(passes: nat, n: nat): (calls: seq<Call<S>>)
    ensures |calls| == passes * n
    ensures forall p, j :: 0 <= p < passes && 0 <= j < n ==>
              Offset(p, n, j) < |calls| && calls[Offset(p, n, j)] == Call(j, AgentStep)
  {
    var rounds := seq(passes, _ => Round<S>(n, AgentStep));
    Flatten(rounds, n)
  }

  /** A learning schedule is one round followed by the remaining passes. */
  lemma LearnScheduleCons<S>(passes: nat, n: nat)
    requires 0 < passes
    ensures LearnSchedule<S>(passes, n) == Round(n, AgentStep) + LearnSchedule(passes - 1, n)
  {
    var rounds := seq(passes, _ => Round<S>(n, AgentStep));
    var fewer := seq(passes - 1, _ => Round<S>(n, AgentStep));
    assert rounds[1..] == fewer;
    assert rounds[0][..n] == Round(n, AgentStep);
    FlattenCons(rounds, n);
  }

  /** Over a learning schedule every agent steps once per pass, and only agents step. */
  lemma {:induction false} LearnScheduleCount<S>(passes: nat, n: nat, call: Call<S>)
    ensures multiset(LearnSchedule(passes, n))[call]
            == if call.op == AgentStep && call.agent < n then passes else 0
  {
    if passes == 0 {
      assert LearnSchedule<S>(passes, n) == [];
    } else {
      var whole := LearnSchedule<S>(passes, n);
      var round := Round<S>(n, AgentStep);
      var fewer := LearnSchedule<S>(passes - 1, n);
      assert multiset(whole)[call] == multiset(round)[call] + multiset(fewer)[call] by {
        LearnScheduleCons<S>(passes, n);
      }
      RoundCount(n, AgentStep, call);
      LearnScheduleCount(passes - 1, n, call);
    }
  }

  /**
   Whether a step at `timeStep` learns, given the number of experiences stored
   after recording that step.
   */
  predicate Learns(config: Config, timeStep: int, stored: nat)
    requires 0 < config.updateEvery
  {
    timeStep % config.updateEvery == 0 && stored > config.batchSize
  }

  /**
   One environment step: the joint experience is recorded first, always; then,
   if the time step is on the cadence and the buffer now holds more than one
   batch, every agent steps once per learning pass, in index order.
   The time step's remainder is taken for a positive divisor, where the floor
   and Euclidean conventions agree.
   */
  function Step<S, A, R>(c: Maddpg<S, A, R>, timeStep: int, states: seq<S>, actions: seq<A>,
                         rewards: seq<R>, nextStates: seq<S>, dones: seq<bool>)
    : (r: (Maddpg<S, A, R>, seq<Call<S>>))
    requires c.Valid()
    ensures r.0.Valid()
    ensures r.0 == c.(memory := Add(c.memory, states, actions, rewards, nextStates, dones))
    ensures !Learns(c.config, timeStep, |r.0.memory.memory|) ==> r.1 == []
    ensures Learns(c.config, timeStep, |r.0.memory.memory|) ==>
              && |r.1| == c.config.learnUpdates * c.numAgents
              && forall p, j :: 0 <= p < c.config.learnUpdates && 0 <= j < c.numAgents ==>
                   Offset(p, c.numAgents, j) < |r.1|
                   && r.1[Offset(p, c.numAgents, j)] == Call(j, AgentStep)
  {
    var c' := c.(memory := Add(c.memory, states, actions, rewards, nextStates, dones));
    if timeStep % c.config.updateEvery != 0 then (c', [])
    else if Length(c'.memory) > c.config.batchSize then
      (c', LearnSchedule(c.config.learnUpdates, c.numAgents))
    else (c', [])
  }

  /**
   How often each agent steps during one coordinator step: `learnUpdates`
   times when learning triggers, otherwise never.
   */
  lemma StepCount<S, A, R>(c: Maddpg<S, A, R>, timeStep: int, states: seq<S>, actions: seq<A>,
                           rewards: seq<R>, nextStates: seq<S>, dones: seq<bool>, call: Call<S>)
    requires c.Valid()
    ensures var r := Step(c, timeStep, states, actions, rewards, nextStates, dones);
            multiset(r.1)[call]
            == if Learns(c.config, timeStep, |r.0.memory.memory|) && call.op == AgentStep
                  && call.agent < c.numAgents
               then c.config.learnUpdates else 0
  {
    LearnScheduleCount<S>(c.config.learnUpdates, c.numAgents, call);
  }

  /**
   The warm-up gate in terms of the buffer before the step: learning triggers
   exactly when the step is on the cadence, the buffer already held at least
   one batch, and the capacity exceeds the batch size. A buffer that reaches
   exactly `batchSize` with this step does not learn yet.
   */
  lemma WarmUpGate<S, A, R>(c: Maddpg<S, A, R>, timeStep: int, states: seq<S>, actions: seq<A>,
                            rewards: seq<R>, nextStates: seq<S>, dones: seq<bool>)
    requires c.Valid()
    ensures var r := Step(c, timeStep, states, actions, rewards, nextStates, dones);
            Learns(c.config, timeStep, |r.0.memory.memory|)
            <==> && timeStep % c.config.updateEvery == 0
                 && |c.memory.memory| >= c.config.batchSize
                 && c.config.bufferSize > c.config.batchSize
  {
  }

  /**
   Whenever a step learns, the shared buffer holds more than one batch, so
   every draw the agents make from it finds enough experiences. The draw is
   only constrained as `Sample` constrains it, so the bound on the buffer
   comes from the warm-up gate alone.
   */
  lemma LearningDrawsSucceed<S, A, R>(c: Maddpg<S, A, R>, timeStep: int, states: seq<S>,
                                      actions: seq<A>, rewards: seq<R>, nextStates: seq<S>,
                                      dones: seq<bool>, picks: seq<nat>)
    requires c.Valid()
    requires Step(c, timeStep, states, actions, rewards, nextStates, dones).1 != []
    requires var m := Step(c, timeStep, states, actions, rewards, nextStates, dones).0.memory;
             m.batchSize <= |m.memory| ==> IsDraw(picks, |m.memory|, m.batchSize)
    ensures var m := Step(c, timeStep, states, actions, rewards, nextStates, dones).0.memory;
            m.batchSize < |m.memory|
    ensures var m := Step(c, timeStep, states, actions, rewards, nextStates, dones).0.memory;
            Sample(m, picks) != Failure(SampleLargerThanPopulation)
  {
  }

  /**
   Asks every agent, in index order, for its action on its own observation,
   passing the same noise flag to all. The answer of agent `i` to
   `act(observation, addNoise)` is `policy(i, observation, addNoise)`. When
   `states` has fewer entries than there are agents, the agents up to the
   missing one have been asked and the call fails. Like the trainer's
   `act`, the noise flag defaults to on.
   */
  method Act<S, A, R>(c: Maddpg<S, A, R>, policy: (nat, S, bool) -> A, states: seq<S>,
                      addNoise: bool := true)
    returns (actions: Result<seq<A>, ActError>, calls: seq<Call<S>>)
    requires c.Valid()
    ensures |calls| == Min(|states|, c.numAgents)
    ensures forall i :: 0 <= i < |calls| ==> calls[i] == Call(i, AgentAct(states[i], addNoise))
    ensures actions.Success? <==> c.numAgents <= |states|
    ensures actions.Failure? ==> actions.error == MissingObservation(|states|)
    ensures actions.Success? ==>
              && |actions.value| == c.numAgents
              && forall i :: 0 <= i < c.numAgents ==>
                   actions.value[i] == policy(i, states[i], addNoise)
  {
    var rows: seq<A> := [];
    calls := [];
    var index := 0;
    while index < c.numAgents
      invariant index <= c.numAgents && index <= |states|
      invariant |rows| == index && |calls| == index
      invariant forall i :: 0 <= i < index ==> rows[i] == policy(i, states[i], addNoise)
      invariant forall i :: 0 <= i < index ==> calls[i] == Call(i, AgentAct(states[i], addNoise))
    {
      if index == |states| {
        return Failure(MissingObservation(index)), calls;
      }
      calls := calls + [Call(index, AgentAct(states[index], addNoise))];
      rows := rows + [policy(index, states[index], addNoise)];
      index := index + 1;
    }
    actions := Success(rows);
  }

  /** Resets every agent once, in index order; the shared buffer is left as it was. */
  function Reset<S, A, R>(c: Maddpg<S, A, R>): (r: (Maddpg<S, A, R>, seq<Call<S>>))
    requires c.Valid()
    ensures r.0 == c
    ensures |r.1| == c.numAgents
    ensures forall j :: 0 <= j < c.numAgents ==> r.1[j] == Call(j, AgentReset)
  {
    (c, Round(c.numAgents, AgentReset))
  }

  /** A reset calls `reset()` exactly once on each agent and makes no other call. */
  lemma ResetEachAgentOnce<S, A, R>(c: Maddpg<S, A, R>, call: Call<S>)
    requires c.Valid()
    ensures multiset(Reset(c).1)[call]
            == if call.op == AgentReset && call.agent < c.numAgents then 1 else 0
  {
    RoundCount(c.numAgents, AgentReset, call);
  }

  /** One environment step as the trainer passes it to the coordinator. */
  datatype EnvStep<S, A, R> = EnvStep(timeStep: int, experience: Experience<S, A, R>)

  /** Runs the coordinator over `steps`, concatenating the calls made on the agents. */
  function Run<S, A, R>(c: Maddpg<S, A, R>, steps: seq<EnvStep<S, A, R>>)
    : (r: (Maddpg<S, A, R>, seq<Call<S>>))
    requires c.Valid()
    ensures r.0.Valid() && r.0 == c.(memory := r.0.memory)
    decreases |steps|
  {
    if steps == [] then (c, [])
    else
      var e := steps[0].experience;
      var first := Step(c, steps[0].timeStep, e.state, e.action, e.reward, e.nextState, e.done);
      var rest := Run(first.0, steps[1..]);
      (rest.0, first.1 + rest.1)
  }

  /** The experiences of `steps`, in order. */
  function Experiences<S, A, R>(steps: seq<EnvStep<S, A, R>>): seq<Experience<S, A, R>> {
    seq(|steps|, i requires 0 <= i < |steps| => steps[i].experience)
  }

  /**
   Over any run the shared buffer ends up holding the newest `bufferSize`
   experiences recorded, whether or not the agents learned along the way.
   */
  lemma {:induction false} RunRecordsEveryStep<S, A, R>(c: Maddpg<S, A, R>,
                                                        steps: seq<EnvStep<S, A, R>>)
    requires c.Valid()
    ensures Run(c, steps).0.memory.memory
            == Window(c.memory.memory + Experiences(steps), c.config.bufferSize)
    decreases |steps|
  {
    RunIsAddAll(c, steps);
    AddAllKeepsNewest(c.memory, Experiences(steps));
  }

  /** The buffer after a run is the buffer after adding the run's experiences. */
  lemma {:induction false} RunIsAddAll<S, A, R>(c: Maddpg<S, A, R>, steps: seq<EnvStep<S, A, R>>)
    requires c.Valid()
    ensures Run(c, steps).0.memory == AddAll(c.memory, Experiences(steps))
    decreases |steps|
  {
    if steps != [] {
      var e := steps[0].experience;
      var first := Step(c, steps[0].timeStep, e.state, e.action, e.reward, e.nextState, e.done);
      RunIsAddAll(first.0, steps[1..]);
      assert Experiences(steps[1..]) == Experiences(steps)[1..];
    }
  }

  /**
   A coordinator on the trainer's fixed schedule (`UpdateEvery` =
   `LearnUpdates` = 1: learning may trigger on every time step, one pass per
   trigger) whose buffer already holds a batch and can hold more.
   */
  predicate Warm<S, A, R>(c: Maddpg<S, A, R>) {
    && c.Valid()
    && c.config.updateEvery == UpdateEvery
    && c.config.learnUpdates == LearnUpdates
    && c.config.batchSize <= |c.memory.memory|
    && c.config.batchSize < c.config.bufferSize
  }

  /** A warm coordinator stays warm over one step, and that step makes agent `j` learn once. */
  lemma WarmStep<S, A, R>(c: Maddpg<S, A, R>, s: EnvStep<S, A, R>, j: nat)
    requires Warm(c) && j < c.numAgents
    ensures var e := s.experience;
            var r := Step(c, s.timeStep, e.state, e.action, e.reward, e.nextState, e.done);
            && Warm(r.0) && r.0.config == c.config && r.0.numAgents == c.numAgents
            && multiset(r.1)[Call(j, AgentStep)] == 1
  {
    var e := s.experience;
    WarmUpGate(c, s.timeStep, e.state, e.action, e.reward, e.nextState, e.done);
    StepCount(c, s.timeStep, e.state, e.action, e.reward, e.nextState, e.done, Call(j, AgentStep));
  }

  /**
   Once the buffer holds a batch (and can hold more), the coordinator with the
   trainer's fixed schedule (`UpdateEvery` = `LearnUpdates` = 1) makes every
   agent learn exactly once per environment step over any run, whatever the
   time steps are.
   */
  lemma {:induction false} WarmRunLearnsEveryStep<S, A, R>(c: Maddpg<S, A, R>,
                                                           steps: seq<EnvStep<S, A, R>>, j: nat)
    requires Warm(c) && j < c.numAgents
    ensures multiset(Run(c, steps).1)[Call(j, AgentStep)] == |steps|
    decreases |steps|
  {
    if steps != [] {
      var e := steps[0].experience;
      var first := Step(c, steps[0].timeStep, e.state, e.action, e.reward, e.nextState, e.done);
      var rest := Run(first.0, steps[1..]);
      var call := Call(j, AgentStep);
      assert multiset(first.1)[call] == 1 && multiset(rest.1)[call] == |steps| - 1 by {
        WarmStep(c, steps[0], j);
        WarmRunLearnsEveryStep(first.0, steps[1..], j);
      }
      assert multiset(Run(c, steps).1)[call] == multiset(first.1)[call] + multiset(rest.1)[call] by {
        assert Run(c, steps).1 == first.1 + rest.1;
      }
    }
  }
}
