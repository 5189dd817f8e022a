/** The double-buffered queue through which other threads hand work to one consumer. It carries call-backs
    (common/call_back.cpp), received messages (common/tcpserver.cpp) and tasks (common/task_thread_pool.cpp):
    producers push onto the current queue, the consumer flips the index under the lock and then drains the
    other queue without it. */
module HandOff {

  datatype Consumer =
    | Idle
    /** Draining queue `index`; `ran` once its front has been run and is still to be popped. */
    | Draining(index: nat, ran: bool)

  datatype Buffers<T> = Buffers(
    queues: seq<seq<T>>,
    current: nat,
    consumer: Consumer,
    /** History: everything pushed and everything run, in order. */
    pushed: seq<T>,
    done: seq<T>)

  function Start<T>(): Buffers<T> { Buffers([[], []], 0, Idle, [], []) }

  datatype Step<T> =
    | Push(item: T)
    | Swap
    | RunFront
    | PopFront
    | Finish

  predicate Shape<T>(b: Buffers<T>) {
    |b.queues| == 2 && b.current < 2 && (b.consumer.Draining? ==> b.consumer.index < 2)
  }

  predicate Enabled<T>(b: Buffers<T>, step: Step<T>)
    requires Shape(b)
  {
    match step
    case Push(_) => true
    case Swap => b.consumer.Idle? && |b.queues[b.current]| > 0
    case RunFront => b.consumer.Draining? && !b.consumer.ran && |b.queues[b.consumer.index]| > 0
    case PopFront => b.consumer.Draining? && b.consumer.ran && |b.queues[b.consumer.index]| > 0
    case Finish => b.consumer.Draining? && !b.consumer.ran && |b.queues[b.consumer.index]| == 0
  }

  function Next<T>(b: Buffers<T>, step: Step<T>): (r: Buffers<T>)
    requires Shape(b) && Enabled(b, step)
    ensures Shape(r)
  {
    match step
    case Push(item) =>
      b.(queues := b.queues[b.current := b.queues[b.current] + [item]], pushed := b.pushed + [item])
    case Swap => b.(consumer := Draining(b.current, false), current := 1 - b.current)
    case RunFront => b.(consumer := b.consumer.(ran := true), done := b.done + [b.queues[b.consumer.index][0]])
    case PopFront =>
      var i := b.consumer.index;
      b.(consumer := b.consumer.(ran := false), queues := b.queues[i := b.queues[i][1..]])
    case Finish => b.(consumer := Idle)
  }

  ghost predicate Run<T>(states: seq<Buffers<T>>, steps: seq<Step<T>>) {
    && |states| == |steps| + 1
    && states[0] == Start()
    && (forall i :: 0 <= i < |steps| ==>
          Shape(states[i]) && Enabled(states[i], steps[i]) && states[i + 1] == Next(states[i], steps[i]))
  }

  /** What is still to be run of the queue that is being drained. */
  function ToRun<T>(b: Buffers<T>): seq<T>
    requires Shape(b)
  {
    if b.consumer.Idle? then []
    else if b.consumer.ran && b.queues[b.consumer.index] != [] then b.queues[b.consumer.index][1..]
    else b.queues[b.consumer.index]
  }

  ghost predicate Inv<T>(b: Buffers<T>) {
    && Shape(b)
    && b.pushed == b.done + ToRun(b) + b.queues[b.current]
    && match b.consumer
       case Idle => b.queues[1 - b.current] == []
       case Draining(index, ran) => index == 1 - b.current && (ran ==> b.queues[index] != [])
  }

  lemma StepKeepsInv<T>(b: Buffers<T>, step: Step<T>)
    requires Inv(b) && Enabled(b, step)
    ensures Inv(Next(b, step))
  {
    match step
    case Push(item) =>
      assert b.done + ToRun(b) + (b.queues[b.current] + [item]) == (b.done + ToRun(b) + b.queues[b.current]) + [item];
    case Swap =>
      var q := b.queues[b.current];
      assert b.done + [] + q == b.done + q + [];
    case RunFront =>
      var q := b.queues[b.consumer.index];
      assert b.done + q == b.done + [q[0]] + q[1..];
    case _ =>
  }

  /** Over every interleaving: everything is run in the order in which it was pushed, nothing twice, nothing
      skipped; the queue that is not current is empty unless it is being drained. */
  lemma {:induction false} EveryRunKeepsInv<T>(states: seq<Buffers<T>>, steps: seq<Step<T>>)
    requires Run(states, steps)
    ensures forall i :: 0 <= i < |states| ==> Inv(states[i]) && states[i].done <= states[i].pushed
  {
    for i := 0 to |steps|
      invariant forall j :: 0 <= j <= i ==> Inv(states[j])
    {
      StepKeepsInv(states[i], steps[i]);
    }
  }

  /** Producers leave the queue that is being drained alone, and the consumer the one that is current. */
  lemma DisjointQueues<T>(b: Buffers<T>, step: Step<T>)
    requires Inv(b) && b.consumer.Draining? && Enabled(b, step)
    ensures step.Push? ==> Next(b, step).queues[b.consumer.index] == b.queues[b.consumer.index]
    ensures !step.Push? ==> Next(b, step).queues[b.current] == b.queues[b.current]
  {
  }

  function Rank<T>(b: Buffers<T>): nat
    requires Shape(b)
  {
    if b.consumer.Idle? then 0 else 2 * |ToRun(b)| + (if b.consumer.ran then 1 else 0) + 1
  }

  /** A drain ends however many items are pushed meanwhile, even by the items that it runs: pushing does not
      lengthen it, and its own steps shorten it. */
  lemma DrainEnds<T>(b: Buffers<T>, step: Step<T>)
    requires Inv(b) && b.consumer.Draining? && Enabled(b, step)
    ensures if step.Push? then Rank(Next(b, step)) == Rank(b) else Rank(Next(b, step)) < Rank(b)
  {
  }

  /** A drain that has not ended can always go on. */
  lemma DrainNeverStuck<T>(b: Buffers<T>)
    requires Inv(b) && b.consumer.Draining?
    ensures Enabled(b, RunFront) || Enabled(b, PopFront) || Enabled(b, Finish)
  {
  }

  // -------------------------------------------------------------------------------------------
  // The queue as an object
  // -------------------------------------------------------------------------------------------

  lemma RunAndPopKeepsInv<T>(b: Buffers<T>)
    requires Inv(b) && Enabled(b, RunFront)
    ensures var i := b.consumer.index;
            Inv(b.(done := b.done + [b.queues[i][0]], queues := b.queues[i := b.queues[i][1..]]))
  {
    StepKeepsInv(b, RunFront);
    StepKeepsInv(Next(b, RunFront), PopFront);
  }

  class Queue<T> {
    var queues: seq<seq<T>>
    var current: nat
    ghost var consumer: Consumer
    ghost var pushed: seq<T>
    /** The items run, in order. */
    var done: seq<T>

    ghost function State(): Buffers<T>
      reads this
    {
      Buffers(queues, current, consumer, pushed, done)
    }

    constructor ()
      ensures State() == Start()
    {
      queues, current, consumer := [[], []], 0, Idle;
      pushed, done := [], [];
    }

    /** `add_cb`, `push_message` and `push`, under the lock. */
    method PushItem(item: T)
      requires Inv(State())
      modifies this
      ensures Inv(State()) && State() == Next(old(State()), Push(item))
    {
      StepKeepsInv(State(), Push(item));
      queues := queues[current := queues[current] + [item]];
      pushed := pushed + [item];
    }

    /** `poll`, `_real_run` and `run`: flip under the lock, then drain. */
    method Poll()
      requires Inv(State()) && consumer == Idle
      modifies this
      ensures Inv(State()) && consumer == Idle
      ensures done == old(done) + old(queues[current]) && pushed == old(pushed)
      ensures queues == [[], []]
    {
      if |queues[current]| == 0 {
        assert queues[1 - current] == [];
        return;
      }
      var index := current;
      current := 1 - current;
      consumer := Draining(index, false);
      while |queues[index]| > 0
        invariant Inv(State()) && consumer == Draining(index, false) && index == 1 - current
        invariant done + queues[index] == old(done) + old(queues[current])
        invariant queues[current] == [] && pushed == old(pushed)
        decreases |queues[index]|
      {
        var front := queues[index][0];
        RunAndPopKeepsInv(State());
        done := done + [front];
        queues := queues[index := queues[index][1..]];
      }
      consumer := Idle;
    }
  }
}
