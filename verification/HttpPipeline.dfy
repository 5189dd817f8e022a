/** The pipeline of HTTP tasks (common/HttpManager.cpp): producers add tasks, one thread performs the
    requests (`excute`), the game thread applies the answers (`logicExcute`); three queues, two locks. */
module HttpPipeline {

  /** Where the request thread is in `update`. */
  datatype Worker =
    | Waiting
    /** Holding the first lock, moving the added tasks over. */
    | Taking
    | Between
    /** Holding the second lock: about to perform the front task, having performed it, having handed it on. */
    | Ready
    | Performed
    | HandedOn

  /** Where the game thread is in `logicUpdate`. */
  datatype Logic =
    | Resting
    /** Holding the second lock, moving the completed tasks over. */
    | Collecting
    | Applying
    /** The front task has been applied and is still to be popped. */
    | Applied

  datatype Pipe<T> = Pipe(
    https: seq<T>,
    execute: seq<T>,
    complete: seq<T>,
    collected: seq<T>,
    worker: Worker,
    logic: Logic,
    /** History: tasks added, performed and applied, in order. */
    added: seq<T>,
    performed: seq<T>,
    applied: seq<T>)

  function Start<T>(): Pipe<T> { Pipe([], [], [], [], Waiting, Resting, [], [], []) }

  predicate HttpLockFree<T>(p: Pipe<T>) { p.worker != Taking }

  predicate CompleteLockFree<T>(p: Pipe<T>) {
    !p.worker.Ready? && !p.worker.Performed? && !p.worker.HandedOn? && !p.logic.Collecting?
  }

  datatype Step<T> =
    | Add(task: T)
    | LockHttp | MoveHttp | UnlockHttp
    | LockExecute | Excute | HandOn | PopExecute | UnlockExecute
    | LockCollect | MoveComplete | UnlockCollect
    | LogicExcute | PopCollected | FinishLogic

  predicate Enabled<T>(p: Pipe<T>, step: Step<T>) {
    match step
    case Add(_) => HttpLockFree(p)
    case LockHttp => p.worker == Waiting && HttpLockFree(p)
    case MoveHttp => p.worker == Taking && p.https != []
    case UnlockHttp => p.worker == Taking && p.https == []
    case LockExecute => p.worker == Between && CompleteLockFree(p)
    case Excute => p.worker == Ready && p.execute != []
    case HandOn => p.worker == Performed && p.execute != []
    case PopExecute => p.worker == HandedOn && p.execute != []
    case UnlockExecute => p.worker == Ready && p.execute == []
    case LockCollect => p.logic == Resting && CompleteLockFree(p)
    case MoveComplete => p.logic == Collecting && p.complete != []
    case UnlockCollect => p.logic == Collecting && p.complete == []
    case LogicExcute => p.logic == Applying && p.collected != []
    case PopCollected => p.logic == Applied && p.collected != []
    case FinishLogic => p.logic == Applying && p.collected == []
  }

  function Next<T>(p: Pipe<T>, step: Step<T>): Pipe<T>
    requires Enabled(p, step)
  {
    match step
    case Add(task) => p.(https := p.https + [task], added := p.added + [task])
    case LockHttp => p.(worker := Taking)
    case MoveHttp => p.(execute := p.execute + [p.https[0]], https := p.https[1..])
    case UnlockHttp => p.(worker := Between)
    case LockExecute => p.(worker := Ready)
    case Excute => p.(worker := Performed, performed := p.performed + [p.execute[0]])
    case HandOn => p.(worker := HandedOn, complete := p.complete + [p.execute[0]])
    case PopExecute => p.(worker := Ready, execute := p.execute[1..])
    case UnlockExecute => p.(worker := Waiting)
    case LockCollect => p.(logic := Collecting)
    case MoveComplete => p.(collected := p.collected + [p.complete[0]], complete := p.complete[1..])
    case UnlockCollect => p.(logic := Applying)
    case LogicExcute => p.(logic := Applied, applied := p.applied + [p.collected[0]])
    case PopCollected => p.(logic := Applying, collected := p.collected[1..])
    case FinishLogic => p.(logic := Resting)
  }

  ghost predicate Run<T>(states: seq<Pipe<T>>, steps: seq<Step<T>>) {
    && |states| == |steps| + 1
    && states[0] == Start()
    && (forall i :: 0 <= i < |steps| ==> Enabled(states[i], steps[i]) && states[i + 1] == Next(states[i], steps[i]))
  }

  function DropFirst<T>(q: seq<T>): seq<T> {
    if q == [] then [] else q[1..]
  }

  /** Performed and not handed on yet. */
  function InHand<T>(p: Pipe<T>): seq<T> {
    if p.worker == Performed && p.execute != [] then [p.execute[0]] else []
  }

  /** Taken over and still to be performed. */
  function ToPerform<T>(p: Pipe<T>): seq<T> {
    if p.worker == Performed || p.worker == HandedOn then DropFirst(p.execute) else p.execute
  }

  /** Collected and still to be applied. */
  function ToApply<T>(p: Pipe<T>): seq<T> {
    if p.logic == Applied then DropFirst(p.collected) else p.collected
  }

  ghost predicate Inv<T>(p: Pipe<T>) {
    && p.performed == p.applied + ToApply(p) + p.complete + InHand(p)
    && p.added == p.performed + ToPerform(p) + p.https
    && (p.worker == Waiting ==> p.execute == [])
    && (p.worker == Performed || p.worker == HandedOn ==> p.execute != [])
    && (p.logic == Resting ==> p.collected == [])
    && (p.logic == Applied ==> p.collected != [])
    // the second lock is held by at most one of the two threads
    && (p.logic == Collecting ==> p.worker == Waiting || p.worker == Taking || p.worker == Between)
  }

  lemma WorkerStepKeepsInv<T>(p: Pipe<T>, step: Step<T>)
    requires Inv(p) && Enabled(p, step)
    requires step.Add? || step.MoveHttp? || step.Excute? || step.HandOn? || step.PopExecute?
    ensures Inv(Next(p, step))
  {
    var front := if p.execute == [] then [] else [p.execute[0]];
    assert p.execute == front + DropFirst(p.execute);
    match step
    case Add(task) =>
      assert p.performed + ToPerform(p) + (p.https + [task]) == (p.performed + ToPerform(p) + p.https) + [task];
    case MoveHttp =>
      assert p.performed + (p.execute + [p.https[0]]) + p.https[1..] == p.performed + p.execute + p.https;
    case Excute =>
      assert p.performed + (front + DropFirst(p.execute)) + p.https == (p.performed + front) + DropFirst(p.execute) + p.https;
    case HandOn =>
      assert p.applied + ToApply(p) + (p.complete + front) + [] == p.applied + ToApply(p) + p.complete + front;
    case PopExecute =>
  }

  lemma LogicStepKeepsInv<T>(p: Pipe<T>, step: Step<T>)
    requires Inv(p) && Enabled(p, step)
    requires step.MoveComplete? || step.LogicExcute? || step.PopCollected?
    ensures Inv(Next(p, step))
  {
    match step
    case MoveComplete =>
      assert p.applied + (p.collected + [p.complete[0]]) + p.complete[1..] == p.applied + p.collected + p.complete;
    case LogicExcute =>
      assert p.applied + p.collected == (p.applied + [p.collected[0]]) + DropFirst(p.collected);
    case PopCollected =>
  }

  lemma StepKeepsInv<T>(p: Pipe<T>, step: Step<T>)
    requires Inv(p) && Enabled(p, step)
    ensures Inv(Next(p, step))
  {
    if step.Add? || step.MoveHttp? || step.Excute? || step.HandOn? || step.PopExecute? {
      WorkerStepKeepsInv(p, step);
    } else if step.MoveComplete? || step.LogicExcute? || step.PopCollected? {
      LogicStepKeepsInv(p, step);
    }
  }

  /** Over every interleaving: every task is performed once and then applied once, both in the order in
      which the tasks were added, and none is lost. */
  lemma {:induction false} EveryRunKeepsInv<T>(states: seq<Pipe<T>>, steps: seq<Step<T>>)
    requires Run(states, steps)
    ensures forall i :: 0 <= i < |states| ==>
              Inv(states[i]) && states[i].applied <= states[i].performed <= states[i].added
  {
    hide Next, Enabled;
    for i := 0 to |steps|
      invariant forall j :: 0 <= j <= i ==> Inv(states[j])
    {
      StepKeepsInv(states[i], steps[i]);
    }
  }

  lemma AtRestEverythingIsApplied<T>(states: seq<Pipe<T>>, steps: seq<Step<T>>)
    requires Run(states, steps)
    ensures var p := states[|steps|];
            p.worker == Waiting && p.logic == Resting && p.https == [] && p.complete == []
            ==> p.applied == p.performed == p.added
  {
    EveryRunKeepsInv(states, steps);
    var p := states[|steps|];
    assert p.applied + [] + [] + [] == p.applied && p.performed + [] + [] == p.performed;
  }

  /** The two locks never wait for each other: whichever threads hold them, one of the two can move. */
  lemma NoDeadlock<T>(p: Pipe<T>)
    requires Inv(p)
    ensures exists step: Step<T> :: !step.Add? && Enabled(p, step)
  {
    if p.logic == Collecting {
      assert Enabled(p, if p.complete != [] then MoveComplete else UnlockCollect);
    } else {
      match p.worker
      case Waiting => assert Enabled(p, LockHttp);
      case Taking => assert Enabled(p, if p.https != [] then MoveHttp else UnlockHttp);
      case Between => assert Enabled(p, LockExecute);
      case Ready => assert Enabled(p, if p.execute != [] then Excute else UnlockExecute);
      case Performed => assert Enabled(p, HandOn);
      case HandedOn => assert Enabled(p, PopExecute);
    }
  }

  // -------------------------------------------------------------------------------------------
  // The manager as an object, each call uninterrupted
  // -------------------------------------------------------------------------------------------

  lemma DrainedKeepsInv<T>(p: Pipe<T>)
    requires Inv(p) && p.worker == Waiting && p.logic == Resting
    ensures Inv(p.(https := [], complete := p.complete + p.https, performed := p.performed + p.https))
  {
    assert p.applied + [] + (p.complete + p.https) + [] == (p.applied + [] + p.complete + []) + p.https;
    assert p.performed + [] + p.https == (p.performed + p.https) + [] + [];
  }

  class HttpManager<T> {
    var https: seq<T>
    var executeHttps: seq<T>
    var completeTask: seq<T>
    /** The tasks on which `excute`, and on which `logicExcute`, has been called. */
    var performed: seq<T>
    var applied: seq<T>
    ghost var added: seq<T>

    ghost function State(): Pipe<T>
      reads this
    {
      Pipe(https, executeHttps, completeTask, [], Waiting, Resting, added, performed, applied)
    }

    constructor ()
      ensures State() == Start()
    {
      https, executeHttps, completeTask, performed, applied, added := [], [], [], [], [], [];
    }

    method AddHttpTask(task: T)
      requires Inv(State())
      modifies this
      ensures State() == Next(old(State()), Add(task)) && Inv(State())
    {
      StepKeepsInv(State(), Add(task));
      https := https + [task];
      added := added + [task];
    }

    /** The first loop of `update`, under the first lock. */
    method TakeAll()
      modifies this`https, this`executeHttps
      ensures https == [] && executeHttps == old(executeHttps + https)
    {
      while |https| != 0
        invariant executeHttps + https == old(executeHttps + https)
        decreases |https|
      {
        executeHttps := executeHttps + [https[0]];
        https := https[1..];
      }
    }

    /** The second loop, under the second lock. */
    method PerformAll()
      modifies this`executeHttps, this`completeTask, this`performed
      ensures executeHttps == [] && completeTask == old(completeTask + executeHttps) && performed == old(performed + executeHttps)
    {
      while |executeHttps| != 0
        invariant completeTask + executeHttps == old(completeTask + executeHttps)
        invariant performed + executeHttps == old(performed + executeHttps)
        decreases |executeHttps|
      {
        var task := executeHttps[0];
        performed := performed + [task];
        completeTask := completeTask + [task];
        executeHttps := executeHttps[1..];
      }
    }

    method Update()
      requires Inv(State())
      modifies this
      ensures State() == old(State()).(https := [], complete := old(completeTask + https), performed := old(performed + https))
      ensures Inv(State())
    {
      DrainedKeepsInv(State());
      assert executeHttps == [] && executeHttps + https == https;
      hide Inv;
      TakeAll();
      PerformAll();
    }

    /** The first loop of `logicUpdate`, under the second lock. */
    method CollectAll() returns (queueTemp: seq<T>)
      modifies this`completeTask
      ensures completeTask == [] && queueTemp == old(completeTask)
    {
      queueTemp := [];
      while |completeTask| != 0
        invariant queueTemp + completeTask == old(completeTask)
        decreases |completeTask|
      {
        queueTemp := queueTemp + [completeTask[0]];
        completeTask := completeTask[1..];
      }
    }

    method ApplyAll(queue: seq<T>)
      modifies this`applied
      ensures applied == old(applied) + queue
    {
      var queueTemp := queue;
      while |queueTemp| != 0
        invariant applied + queueTemp == old(applied) + queue
        decreases |queueTemp|
      {
        applied := applied + [queueTemp[0]];
        queueTemp := queueTemp[1..];
      }
    }

    method LogicUpdate()
      requires Inv(State())
      modifies this
      ensures State() == old(State()).(complete := [], applied := old(applied + completeTask))
      ensures Inv(State())
    {
      CollectedKeepsInv(State());
      hide Inv;
      var queueTemp := CollectAll();
      ApplyAll(queueTemp);
    }
  }

  lemma CollectedKeepsInv<T>(p: Pipe<T>)
    requires Inv(p) && p.worker == Waiting && p.logic == Resting
    ensures Inv(p.(complete := [], applied := p.applied + p.complete))
  {
    assert p.applied + [] + p.complete + [] == (p.applied + p.complete) + [] + [] + [];
  }
}
