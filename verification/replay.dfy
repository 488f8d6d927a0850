/**
 The shared replay buffer of the multi-agent trainer: a bounded sliding window
 of joint experiences (one record per environment step, holding every agent's
 observation, action, reward, next observation and done flag), sampled without
 replacement and reshaped so that the agent dimension becomes part of the
 leading axis.

 Observations, actions and rewards are opaque values (`S`, `A`, `R`); only
 their positions matter. The pseudo-random draw is a parameter: `picks` lists
 the stored positions the draw chose.
 */
module Replay {
  import opened Outcomes
  import opened Layout

  /** One joint step: field `f[j]` belongs to agent `j`. */
  datatype Experience<S, A, R> = Experience(
    state: seq<S>,
    action: seq<A>,
    reward: seq<R>,
    nextState: seq<S>,
    done: seq<bool>)

  /** The buffer: its configuration and the stored experiences, oldest first. */
  datatype ReplayBuffer<S, A, R> = ReplayBuffer(
    numAgents: nat,
    bufferSize: nat,
    batchSize: nat,
    memory: seq<Experience<S, A, R>>)
  {
    /** The window never holds more than `bufferSize` experiences. */
    predicate Valid() {
      |memory| <= bufferSize
    }
  }

  /**
   The five outputs of a draw. Row `i * numAgents + j` of each belongs to agent
   `j` of the `i`-th drawn experience; rewards and dones are one-element rows,
   and dones are numbers 0 or 1.
   */
  datatype Batch<S, A, R> = Batch(
    states: seq<S>,
    actions: seq<A>,
    rewards: seq<seq<R>>,
    nextStates: seq<S>,
    dones: seq<seq<nat>>)

  /** Why a draw fails, in the order the checks happen. */
  datatype SampleError =
    | SampleLargerThanPopulation  // more experiences requested than stored
    | EmptyBatch                  // nothing drawn, so there is nothing to stack
    | AgentIndexOutOfRange        // a drawn experience lacks an entry for some agent

  /** A fresh, empty buffer. The seed only reseeds the process-wide generator. */
  function Create<S, A, R>(numAgents: nat, bufferSize: nat, batchSize: nat, seed: int)
    : (b: ReplayBuffer<S, A, R>)
    ensures b.Valid() && b.memory == []
    ensures b.numAgents == numAgents && b.bufferSize == bufferSize && b.batchSize == batchSize
  {
    ReplayBuffer(numAgents, bufferSize, batchSize, [])
  }

  /** The number of stored experiences. */
  function Length<S, A, R>(b: ReplayBuffer<S, A, R>): (n: nat)
    requires b.Valid()
    ensures n <= b.bufferSize
    ensures n == 0 <==> b.memory == []
  {
    |b.memory|
  }

  /** The last `cap` entries of `history` (all of it when it is shorter). */
  function Window<T>(history: seq<T>, cap: nat): seq<T> {
    if |history| <= cap then history else history[|history| - cap..]
  }

  /**
   Records one joint step at the newest end of the window. When the window is
   full the oldest experience drops out; a window of capacity zero stays empty.
   */
  function Add<S, A, R>(b: ReplayBuffer<S, A, R>, state: seq<S>, action: seq<A>, reward: seq<R>,
                         nextState: seq<S>, done: seq<bool>): (r: ReplayBuffer<S, A, R>)
    requires b.Valid()
    ensures r.Valid()
    ensures r == b.(memory := r.memory)
    ensures |r.memory| == if |b.memory| < b.bufferSize then |b.memory| + 1 else b.bufferSize
    ensures |b.memory| < b.bufferSize ==>
              r.memory == b.memory + [Experience(state, action, reward, nextState, done)]
    ensures 0 < |b.memory| == b.bufferSize ==>
              r.memory == b.memory[1..] + [Experience(state, action, reward, nextState, done)]
    ensures b.bufferSize == 0 ==> r.memory == []
  {
    var grown := b.memory + [Experience(state, action, reward, nextState, done)];
    b.(memory := grown[|grown| - Min(|grown|, b.bufferSize)..])
  }

  function Min(x: nat, y: nat): nat {
    if x <= y then x else y
  }

  /** Adds the experiences of `es` one after another, oldest first. */
  function AddAll<S, A, R>(b: ReplayBuffer<S, A, R>, es: seq<Experience<S, A, R>>)
    : (r: ReplayBuffer<S, A, R>)
    requires b.Valid()
    ensures r.Valid() && r == b.(memory := r.memory)
    decreases |es|
  {
    if es == [] then b
    else
      var e := es[0];
      AddAll(Add(b, e.state, e.action, e.reward, e.nextState, e.done), es[1..])
  }

  /** Trimming to the window before appending more does not change the final window. */
  lemma WindowOfWindow<T>(x: seq<T>, y: seq<T>, cap: nat)
    ensures Window(Window(x, cap) + y, cap) == Window(x + y, cap)
  {
    if |x| > cap {
      var xy := x + y;
      var wy := x[|x| - cap..] + y;
      assert wy == xy[|x| - cap..];
      if y == [] {
        assert xy == x;
      } else {
        assert wy[|y|..] == xy[|x| - cap + |y|..];
      }
    }
  }

  /**
   After any run of adds the buffer holds exactly the newest `bufferSize`
   experiences of everything ever recorded, in insertion order.
   */
  lemma {:induction false} AddAllKeepsNewest<S, A, R>(b: ReplayBuffer<S, A, R>,
                                                      es: seq<Experience<S, A, R>>)
    requires b.Valid()
    ensures AddAll(b, es).memory == Window(b.memory + es, b.bufferSize)
    decreases |es|
  {
    if es == [] {
      assert b.memory + es == b.memory;
    } else {
      var e := es[0];
      var b' := Add(b, e.state, e.action, e.reward, e.nextState, e.done);
      assert e == Experience(e.state, e.action, e.reward, e.nextState, e.done);
      assert b'.memory == Window(b.memory + [e], b.bufferSize);
      AddAllKeepsNewest(b', es[1..]);
      WindowOfWindow(b.memory + [e], es[1..], b.bufferSize);
      assert b.memory + [e] + es[1..] == b.memory + es;
    }
  }

  /** Every field of `e` has an entry for each of the first `n` agents. */
  predicate HasAgents<S, A, R>(e: Experience<S, A, R>, n: nat) {
    && n <= |e.state|
    && n <= |e.action|
    && n <= |e.reward|
    && n <= |e.nextState|
    && n <= |e.done|
  }

  /** The numeric form of a done flag: 1 when the episode ended, else 0. */
  function DoneValue(d: bool): (v: nat)
    ensures v <= 1
    ensures v == 1 <==> d
  {
    if d then 1 else 0
  }

  /**
   Draws `batchSize` experiences at the positions `picks` and reshapes them
   per agent. `picks` stands for the generator's choice, so whenever the
   buffer holds enough experiences it must be a draw without replacement.
   */
  function Sample<S, A, R>(b: ReplayBuffer<S, A, R>, picks: seq<nat>)
    : (r: Result<Batch<S, A, R>, SampleError>)
    requires b.batchSize <= |b.memory| ==> IsDraw(picks, |b.memory|, b.batchSize)
    ensures r == Failure(SampleLargerThanPopulation) <==> |b.memory| < b.batchSize
    ensures r == Failure(EmptyBatch) <==> b.batchSize == 0
    ensures r == Failure(AgentIndexOutOfRange) <==>
              && 0 < b.batchSize <= |b.memory|
              && exists i :: 0 <= i < |picks| && !HasAgents(b.memory[picks[i]], b.numAgents)
    ensures r.Success? ==>
              && |r.value.states| == |r.value.actions| == |r.value.rewards|
                 == |r.value.nextStates| == |r.value.dones| == b.batchSize * b.numAgents
              && forall i, j :: 0 <= i < b.batchSize && 0 <= j < b.numAgents ==>
                   RowOf(r.value, b.memory[picks[i]], Offset(i, b.numAgents, j), j)
  {
    var n := b.numAgents;
    if |b.memory| < b.batchSize then Failure(SampleLargerThanPopulation)
    else if b.batchSize == 0 then Failure(EmptyBatch)
    else
      var drawn := Gather(b.memory, picks);
      if exists i :: 0 <= i < |drawn| && !HasAgents(drawn[i], n) then
        Failure(AgentIndexOutOfRange)
      else
        var batch := Reshape(drawn, n);
        Success(batch)
  }

  /** Row `k` of every output of `batch` is agent `j`'s part of `e`. */
  ghost predicate RowOf<S, A, R>(batch: Batch<S, A, R>, e: Experience<S, A, R>, k: nat, j: nat)
  {
    && j < |e.state| && j < |e.action| && j < |e.reward| && j < |e.nextState| && j < |e.done|
    && k < |batch.states| && k < |batch.actions| && k < |batch.rewards|
    && k < |batch.nextStates| && k < |batch.dones|
    && batch.states[k] == e.state[j]
    && batch.actions[k] == e.action[j]
    && batch.rewards[k] == [e.reward[j]]
    && batch.nextStates[k] == e.nextState[j]
    && batch.dones[k] == [DoneValue(e.done[j])]
  }

  /** Stacks the per-agent parts of `drawn` into the five outputs. */
  function Reshape<S, A, R>(drawn: seq<Experience<S, A, R>>, n: nat): (batch: Batch<S, A, R>)
    requires forall i :: 0 <= i < |drawn| ==> HasAgents(drawn[i], n)
    ensures |batch.states| == |batch.actions| == |batch.rewards|
            == |batch.nextStates| == |batch.dones| == |drawn| * n
    ensures forall i, j :: 0 <= i < |drawn| && 0 <= j < n ==>
              RowOf(batch, drawn[i], Offset(i, n, j), j)
  {
    var states := seq(|drawn|, i requires 0 <= i < |drawn| => drawn[i].state);
    var actions := seq(|drawn|, i requires 0 <= i < |drawn| => drawn[i].action);
    var rewards := seq(|drawn|, i requires 0 <= i < |drawn| =>
                     seq(|drawn[i].reward|, j requires 0 <= j < |drawn[i].reward| =>
                       [drawn[i].reward[j]]));
    var nextStates := seq(|drawn|, i requires 0 <= i < |drawn| => drawn[i].nextState);
    var dones := seq(|drawn|, i requires 0 <= i < |drawn| =>
                   seq(|drawn[i].done|, j requires 0 <= j < |drawn[i].done| =>
                     [DoneValue(drawn[i].done[j])]));
    assert Covers(states, n) && Covers(actions, n) && Covers(rewards, n)
           && Covers(nextStates, n) && Covers(dones, n) by {
      forall i | 0 <= i < |drawn|
        ensures n <= |states[i]| && n <= |actions[i]| && n <= |rewards[i]|
        ensures n <= |nextStates[i]| && n <= |dones[i]|
      {
        assert HasAgents(drawn[i], n);
      }
    }
    var batch := Batch(Flatten(states, n), Flatten(actions, n), Flatten(rewards, n),
                       Flatten(nextStates, n), Flatten(dones, n));
    assert forall i, j :: 0 <= i < |drawn| && 0 <= j < n ==>
             RowOf(batch, drawn[i], Offset(i, n, j), j) by {
      forall i, j | 0 <= i < |drawn| && 0 <= j < n
        ensures RowOf(batch, drawn[i], Offset(i, n, j), j)
      {
        assert HasAgents(drawn[i], n);
        assert batch.states[Offset(i, n, j)] == states[i][j];
        assert batch.actions[Offset(i, n, j)] == actions[i][j];
        assert batch.rewards[Offset(i, n, j)] == rewards[i][j];
        assert batch.nextStates[Offset(i, n, j)] == nextStates[i][j];
        assert batch.dones[Offset(i, n, j)] == dones[i][j];
      }
    }
    batch
  }

  /**
   A successful draw is made without replacement: the experiences it reshapes
   form a sub-multiset of the buffer's contents, one per requested row block.
   */
  lemma SampleWithoutReplacement<S, A, R>(b: ReplayBuffer<S, A, R>, picks: seq<nat>)
    requires b.batchSize <= |b.memory| ==> IsDraw(picks, |b.memory|, b.batchSize)
    requires Sample(b, picks).Success?
    ensures exists drawn: seq<Experience<S, A, R>> ::
              && |drawn| == b.batchSize
              && multiset(drawn) <= multiset(b.memory)
              && forall i, j :: 0 <= i < |drawn| && 0 <= j < b.numAgents ==>
                   RowOf(Sample(b, picks).value, drawn[i], Offset(i, b.numAgents, j), j)
  {
    var drawn := Gather(b.memory, picks);
    GatherWithoutReplacement(b.memory, picks);
    assert forall i :: 0 <= i < |drawn| ==> drawn[i] == b.memory[picks[i]];
  }

  /**
   Every output row of a successful draw comes from a stored experience: row
   `k` is agent `k % numAgents` of the experience at position `picks[k / numAgents]`.
   */
  lemma SampleRowOrigin<S, A, R>(b: ReplayBuffer<S, A, R>, picks: seq<nat>, k: nat)
    requires b.batchSize <= |b.memory| ==> IsDraw(picks, |b.memory|, b.batchSize)
    requires Sample(b, picks).Success?
    requires k < |Sample(b, picks).value.states|
    ensures 0 < b.numAgents && k / b.numAgents < b.batchSize
    ensures picks[k / b.numAgents] < |b.memory|
    ensures RowOf(Sample(b, picks).value, b.memory[picks[k / b.numAgents]], k, k % b.numAgents)
  {
    SplitOffset(k, b.batchSize, b.numAgents);
  }
}
