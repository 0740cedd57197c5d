// The per-thread task queue of module/stl/src/stl_thread_pool.c: a linked queue under a mutex and a
// binary semaphore that tells the worker there is work. First pushers and worker interleaved step
// by step, then the two queue operations on linked tasks.
module TaskQueues {

  type Task = int

  /** Who holds the queue's mutex. A pusher links its task and then posts before it unlocks. */
  datatype Lock = Unlocked | Entering(task: Task) | Linked | Posted | ByWorker

  /** The worker sleeps on the semaphore, is woken, takes a task under the mutex, posts again if more
      tasks are left, unlocks and runs it. */
  datatype Worker = Sleeping | Woken | Locked | Reposting(task: Task) | Leaving(task: Task) | Empty
    | Running(task: Task)

  /** v is the semaphore's value. pushed, pulled and done list the tasks linked, taken and run so far. */
  datatype State = State(queue: seq<Task>, v: bool, lock: Lock, worker: Worker, pushed: seq<Task>, pulled: seq<Task>,
    done: seq<Task>)

  /** Lock and unlock are steps of their own. bsem_post and bsem_wait are one step each, for both
      hold the semaphore's own mutex throughout; waiting is over only when v is 1. */
  datatype Event =
    | PushLock(task: Task) | PushLink | PushPost | PushUnlock
    | Wake | WorkerLock | Take | Repost | WorkerUnlock | RunTask

  const INITIAL: State := State([], false, Unlocked, Sleeping, [], [], [])

  /** One step of a pusher or of the worker; a step that is not due does nothing. */
  function Step(s: State, e: Event): State {
    match e
    case PushLock(task) => if s.lock.Unlocked? then s.(lock := Entering(task)) else s
    case PushLink =>
      if s.lock.Entering?
      then s.(queue := s.queue + [s.lock.task], pushed := s.pushed + [s.lock.task], lock := Linked) else s
    case PushPost => if s.lock.Linked? then s.(v := true, lock := Posted) else s
    case PushUnlock => if s.lock.Posted? then s.(lock := Unlocked) else s
    case Wake => if s.worker.Sleeping? && s.v then s.(v := false, worker := Woken) else s
    case WorkerLock => if s.worker.Woken? && s.lock.Unlocked? then s.(lock := ByWorker, worker := Locked) else s
    case Take =>
      if !s.worker.Locked? then s
      else if |s.queue| == 0 then s.(worker := Empty)
      else
        var t := s.queue[0];
        s.(queue := s.queue[1..], pulled := s.pulled + [t],
           worker := if |s.queue| == 1 then Leaving(t) else Reposting(t))
    case Repost => if s.worker.Reposting? then s.(v := true, worker := Leaving(s.worker.task)) else s
    case WorkerUnlock =>
      if s.worker.Leaving? then s.(lock := Unlocked, worker := Running(s.worker.task))
      else if s.worker.Empty? then s.(lock := Unlocked, worker := Sleeping)
      else s
    case RunTask => if s.worker.Running? then s.(done := s.done + [s.worker.task], worker := Sleeping) else s
  }

  function Run(s: State, events: seq<Event>): State
    decreases |events|
  {
    if events == [] then s else Step(Run(s, events[..|events| - 1]), events[|events| - 1])
  }

  // ---------- The invariant ----------

  /** Woken but not yet served: one task of the queue is owed to the worker. */
  ghost predicate Owed(w: Worker) { w.Woken? || w.Locked? }

  ghost predicate PostDue(s: State) { s.lock.Linked? || s.worker.Reposting? }

  ghost function InHand(w: Worker): seq<Task> {
    if w.Reposting? || w.Leaving? || w.Running? then [w.task] else []
  }

  ghost predicate Inv(s: State) {
    s.pushed == s.pulled + s.queue && s.pulled == s.done + InHand(s.worker)
    && (s.lock.ByWorker? <==> s.worker.Locked? || s.worker.Reposting? || s.worker.Leaving? || s.worker.Empty?)
    && !s.worker.Empty?
    && (if s.v then 1 else 0) + (if Owed(s.worker) then 1 else 0) + (if s.lock.Linked? then 1 else 0) <= |s.queue|
    && (s.queue != [] ==> s.v || Owed(s.worker) || PostDue(s))
    && (s.lock.Linked? || s.worker.Reposting? ==> s.queue != [])
  }

  lemma StepInv(s: State, e: Event)
    requires Inv(s)
    ensures Inv(Step(s, e))
  {
    if e.Take? && s.worker.Locked? {
      assert s.queue == [s.queue[0]] + s.queue[1..];
      assert |s.queue| == 1 ==> s.queue[1..] == [];
    }
  }

  lemma {:induction false} RunInv(events: seq<Event>)
    ensures Inv(Run(INITIAL, events))
    decreases |events|
  {
    if events != [] {
      RunInv(events[..|events| - 1]);
      StepInv(Run(INITIAL, events[..|events| - 1]), events[|events| - 1]);
    }
  }

  // ---------- What holds in every run ----------

  /** Tasks come out exactly once and in push order. */
  lemma RunInPushOrder(events: seq<Event>)
    ensures var s := Run(INITIAL, events);
      s.pushed == s.done + InHand(s.worker) + s.queue && s.done <= s.pushed
  {
    RunInv(events);
    var s := Run(INITIAL, events);
    assert s.pushed == s.done + (InHand(s.worker) + s.queue);
  }

  /** With the mutex free, a queue that is not empty has its semaphore set or its worker woken. */
  lemma NoLostWakeup(events: seq<Event>)
    ensures var s := Run(INITIAL, events);
      s.lock.Unlocked? && s.queue != [] ==> s.v || s.worker.Woken?
  {
    RunInv(events);
  }

  /** A woken worker never finds the queue empty. */
  lemma WokenFindsWork(events: seq<Event>)
    ensures var s := Run(INITIAL, events);
      (s.worker.Woken? || s.worker.Locked? ==> s.queue != []) && !s.worker.Empty?
  {
    RunInv(events);
  }

  // ---------- Every task gets run ----------

  /** The step due next when no new push begins. */
  ghost function Due(s: State): Event {
    if s.lock.Entering? then PushLink
    else if s.lock.Linked? then PushPost
    else if s.lock.Posted? then PushUnlock
    else match s.worker
      case Sleeping => Wake
      case Woken => WorkerLock
      case Locked => Take
      case Reposting(_) => Repost
      case Leaving(_) => WorkerUnlock
      case Empty => WorkerUnlock
      case Running(_) => RunTask
  }

  ghost predicate Drained(s: State) { s.lock.Unlocked? && s.worker.Sleeping? && s.queue == [] }

  /** Steps still to go: ten for each task waiting or entering, fewer as the current ones proceed. */
  ghost function Rank(s: State): nat {
    10 * |s.queue|
    + (match s.lock case Entering(_) => 14 case Linked => 3 case Posted => 2 case _ => 0)
    + (match s.worker case Reposting(_) => 8 case Leaving(_) => 7 case Running(_) => 6 case Sleeping => 5
      case Woken => 4 case Locked => 3 case Empty => 6)
  }

  lemma DueProgress(s: State)
    requires Inv(s) && !Drained(s)
    ensures Rank(Step(s, Due(s))) < Rank(s) && s.pushed <= Step(s, Due(s)).pushed
  {
  }

  lemma {:induction false} RunMore(s: State, e: Event, more: seq<Event>)
    ensures Run(Step(s, e), more) == Run(s, [e] + more)
    decreases |more|
  {
    if more == [] {
      assert [e][..0] == [];
      assert Run(s, [e]) == Step(Run(s, []), e);
    } else {
      var init, last := more[..|more| - 1], more[|more| - 1];
      RunMore(s, e, init);
      assert ([e] + more)[..|more|] == [e] + init;
    }
  }

  lemma {:induction false} DrainFrom(s: State) returns (more: seq<Event>)
    requires Inv(s)
    ensures Inv(Run(s, more)) && Drained(Run(s, more)) && s.pushed <= Run(s, more).pushed
    decreases Rank(s)
  {
    if Drained(s) {
      more := [];
    } else {
      var e := Due(s);
      StepInv(s, e);
      DueProgress(s);
      var rest := DrainFrom(Step(s, e));
      RunMore(s, e, rest);
      more := [e] + rest;
    }
  }

  /** From every reachable state the threads can go on, without any new push, until every task ever
      pushed has been run, in push order: nobody is ever stuck. */
  lemma EveryTaskCanRun(events: seq<Event>)
    ensures exists more :: var s := Run(Run(INITIAL, events), more);
      s.done == s.pushed && Run(INITIAL, events).pushed <= s.done
  {
    RunInv(events);
    var more := DrainFrom(Run(INITIAL, events));
    var s := Run(Run(INITIAL, events), more);
    assert s.done == s.pushed;
  }

  // ---------- The linked queue ----------

  class TaskNode {
    const item: Task
    var prev: TaskNode?

    constructor (item: Task)
      ensures this.item == item && prev == null
    {
      this.item, prev := item, null;
    }
  }

  /** Both operations run with the queue's mutex held; v is the semaphore's value. */
  class TaskQueue {
    var front: TaskNode?
    var rear: TaskNode?
    var len: nat
    var v: bool
    ghost var tasks: seq<TaskNode>

    /** From front to rear, each task's prev link leads to the one pushed after it. */
    ghost predicate Valid()
      reads this, tasks
    {
      len == |tasks|
      && (forall i, j :: 0 <= i < j < len ==> tasks[i] != tasks[j])
      && (if len == 0 then front == null && rear == null else front == tasks[0] && rear == tasks[len - 1])
      && (forall i :: 0 <= i < len - 1 ==> tasks[i].prev == tasks[i + 1])
    }

    /** The queue and the semaphore are those of state s of the interleaving. */
    ghost predicate Shows(s: State)
      reads this
    {
      s.v == v && |s.queue| == |tasks| && forall i :: 0 <= i < |tasks| ==> s.queue[i] == tasks[i].item
    }

    constructor ()
      ensures Valid() && tasks == [] && !v
    {
      front, rear, len, v, tasks := null, null, 0, false, [];
    }

    /** Does what linking and posting do in the interleaving. */
    method Push(task: TaskNode)
      requires Valid() && task !in tasks
      modifies this, task, rear
      ensures Valid() && tasks == old(tasks) + [task] && v
      ensures forall s :: old(Shows(s)) && s.lock == Entering(task.item) ==> Shows(Step(Step(s, PushLink), PushPost))
    {
      task.prev := null;
      if len == 0 {
        front := task;
        rear := task;
      } else {
        rear.prev := task;
        rear := task;
      }
      len := len + 1;
      tasks := tasks + [task];
      v := true;
    }

    /** The oldest task, or null when there is none; posts again when more are left. Does what taking and
        posting again do in the interleaving. */
    method Pull() returns (task: TaskNode?)
      requires Valid()
      modifies this
      ensures Valid() && (task == null <==> old(tasks) == [])
      ensures task != null ==> task == old(tasks)[0] && tasks == old(tasks)[1..]
      ensures task == null ==> tasks == old(tasks)
      ensures v == (old(v) || |old(tasks)| > 1)
      ensures forall s :: old(Shows(s)) && s.worker.Locked? ==>
        var s' := Step(Step(s, Take), Repost);
        Shows(s') && s'.worker == if task == null then Empty else Leaving(task.item)
    {
      task := front;
      if len == 0 {
      } else if len == 1 {
        front := null;
        rear := null;
        len := 0;
        tasks := [];
      } else {
        front := task.prev;
        len := len - 1;
        tasks := tasks[1..];
        v := true;
      }
    }
  }
}
