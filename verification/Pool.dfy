/** The bounded worker pool between the debouncer and the orchestrator
    (internal/application/dispatch/pool.go): the operations on one pool, and the protocol of many
    senders and workers over it. */
module Pool {
  import opened Domain
  import opened Sums

  function OrDefault(n: int, fallback: nat): nat {
    if n <= 0 then fallback else n
  }

  const DEFAULT_WORKERS := 8
  const DEFAULT_QUEUE_SIZE := 64

  // ----- the operations, taken alone -----

  class Queue {
    const workers: nat
    const capacity: nat
    var waiting: seq<Turn>
    var done: bool
    /** What the handler has been called with, in order. */
    var handled: seq<Turn>

    constructor (workers: int, queueSize: int)
      ensures this.workers == (if workers <= 0 then 8 else workers) > 0
      ensures capacity == (if queueSize <= 0 then 64 else queueSize) > 0
      ensures waiting == [] && !done && handled == []
    {
      this.workers := OrDefault(workers, DEFAULT_WORKERS);
      capacity := OrDefault(queueSize, DEFAULT_QUEUE_SIZE);
      waiting, done, handled := [], false, [];
    }

    /** The non-blocking receive on the done channel. */
    method Stopping() returns (stopping: bool)
      ensures stopping == done
    {
      stopping := done;
    }

    /** The non-blocking send on the queue. */
    method TrySend(t: Turn) returns (accepted: bool)
      modifies this`waiting
      ensures accepted <==> |old(waiting)| < capacity
      ensures waiting == if accepted then old(waiting) + [t] else old(waiting)
    {
      accepted := |waiting| < capacity;
      if accepted {
        waiting := waiting + [t];
      }
    }

    method Enqueue(t: Turn) returns (accepted: bool)
      modifies this`waiting
      ensures accepted <==> !done && |old(waiting)| < capacity
      ensures waiting == if accepted then old(waiting) + [t] else old(waiting)
    {
      var stopping := Stopping();
      if stopping {
        return false;
      }
      accepted := TrySend(t);
    }

    /** The signal half of Stop; closing twice is harmless. */
    method Close()
      modifies this`done
      ensures done
    {
      done := true;
    }

    method DrainRemaining()
      modifies this`waiting, this`handled
      ensures waiting == [] && handled == old(handled) + old(waiting)
    {
      while waiting != []
        invariant handled + waiting == old(handled) + old(waiting)
        decreases |waiting|
      {
        var t := waiting[0];
        assert handled + waiting == (handled + [t]) + waiting[1..];
        waiting := waiting[1..];
        handled := handled + [t];
      }
    }
  }

  // ----- the protocol -----

  /** A flush goroutine: it has its turn, it has seen the pool open, or it is through. */
  datatype Stage = Detached | Checked | Refused | Sent

  datatype Sender = Sender(turn: Turn, stage: Stage)

  /** A job in the channel, named by its sender; late when it was sent after the close. */
  datatype Job = Job(sender: nat, late: bool)

  datatype Worker = Waiting | Draining | Running(sender: nat, draining: bool) | Exited

  /** sent and atClose are history: every job accepted, in order, and the senders that were past
      the done check when the pool closed. */
  datatype State = State(
    senders: seq<Sender>,
    queue: seq<Job>,
    workers: seq<Worker>,
    done: bool,
    finished: seq<nat>,
    sent: seq<Job>,
    taken: nat,
    atClose: set<nat>)

  datatype Step =
    | Arrive(turn: Turn)
    | Check(sender: nat)
    | Send(sender: nat)
    | Close
    | Take(worker: nat)
    | SeeDone(worker: nat)
    | DrainTake(worker: nat)
    | Exit(worker: nat)
    | Finish(worker: nat)

  function Started(workers: nat): State {
    State([], [], seq(workers, i => Waiting), false, [], [], 0, {})
  }

  predicate SenderIs(s: State, i: nat, stage: Stage) {
    i < |s.senders| && s.senders[i].stage == stage
  }

  predicate WorkerIs(s: State, w: nat, worker: Worker) {
    w < |s.workers| && s.workers[w] == worker
  }

  predicate Can(s: State, step: Step) {
    match step
    case Arrive(_) => true
    case Check(i) => SenderIs(s, i, Detached)
    case Send(i) => SenderIs(s, i, Checked)
    case Close => !s.done
    case Take(w) => WorkerIs(s, w, Waiting) && s.queue != []
    case SeeDone(w) => WorkerIs(s, w, Waiting) && s.done
    case DrainTake(w) => WorkerIs(s, w, Draining) && s.queue != []
    case Exit(w) => WorkerIs(s, w, Draining) && s.queue == []
    case Finish(w) => w < |s.workers| && s.workers[w].Running?
  }

  function Staged(s: State, i: nat, stage: Stage): seq<Sender>
    requires i < |s.senders|
  {
    s.senders[i := s.senders[i].(stage := stage)]
  }

  ghost function CheckedSenders(s: State): set<nat> {
    set i | 0 <= i < |s.senders| && s.senders[i].stage.Checked? :: i
  }

  function Taking(s: State, w: nat, draining: bool): State
    requires w < |s.workers| && s.queue != []
  {
    s.(workers := s.workers[w := Running(s.queue[0].sender, draining)], queue := s.queue[1..], taken := s.taken + 1)
  }

  ghost function Next(capacity: nat, s: State, step: Step): State
    requires Can(s, step)
  {
    match step
    case Arrive(t) => s.(senders := s.senders + [Sender(t, Detached)])
    case Check(i) => s.(senders := Staged(s, i, if s.done then Refused else Checked))
    case Send(i) =>
      if |s.queue| < capacity then
        s.(senders := Staged(s, i, Sent), queue := s.queue + [Job(i, s.done)], sent := s.sent + [Job(i, s.done)])
      else s.(senders := Staged(s, i, Refused))
    case Close => s.(done := true, atClose := CheckedSenders(s))
    case Take(w) => Taking(s, w, false)
    case SeeDone(w) => s.(workers := s.workers[w := Draining])
    case DrainTake(w) => Taking(s, w, true)
    case Exit(w) => s.(workers := s.workers[w := Exited])
    case Finish(w) =>
      s.(workers := s.workers[w := if s.workers[w].draining then Draining else Waiting],
         finished := s.finished + [s.workers[w].sender])
  }

  /** What Queue.Enqueue does in one go is what the protocol does in two steps: checked and sent
      without interruption, a turn is accepted exactly when the pool is open and has room. */
  lemma EnqueueIsCheckAndSend(capacity: nat, s: State, i: nat)
    requires SenderIs(s, i, Detached)
    ensures
      var checked := Next(capacity, s, Check(i));
      if s.done then checked == s.(senders := checked.senders) && SenderIs(checked, i, Refused)
      else
        && Can(checked, Send(i))
        && var sent := Next(capacity, checked, Send(i));
           if |s.queue| < capacity then SenderIs(sent, i, Sent) && sent.queue == s.queue + [Job(i, false)]
           else SenderIs(sent, i, Refused) && sent.queue == s.queue
  {
  }

  // ----- conservation: every arrived turn is in exactly one place -----

  function JobOf(i: nat): Job -> nat {
    (j: Job) => if j.sender == i then 1 else 0
  }

  function RunOf(i: nat): Worker -> nat {
    (w: Worker) => if w.Running? && w.sender == i then 1 else 0
  }

  function Same(i: nat): nat -> nat {
    (n: nat) => if n == i then 1 else 0
  }

  /** With its sender: detached, checked or refused. */
  function WithSender(s: State, i: nat): nat {
    if i < |s.senders| && !s.senders[i].stage.Sent? then 1 else 0
  }

  function Places(s: State, i: nat): nat {
    WithSender(s, i) + Sum(s.queue, JobOf(i)) + Sum(s.workers, RunOf(i)) + Sum(s.finished, Same(i))
  }

  ghost predicate OncePlaced(s: State) {
    forall i: nat :: Places(s, i) == if i < |s.senders| then 1 else 0
  }

  lemma TakingMoves(s: State, w: nat, draining: bool, i: nat)
    requires w < |s.workers| && !s.workers[w].Running? && s.queue != []
    ensures Places(Taking(s, w, draining), i) == Places(s, i)
  {
    Pop(s.queue, JobOf(i));
    Replace(s.workers, w, Running(s.queue[0].sender, draining), RunOf(i));
    hide Sum;
  }

  lemma SendMoves(capacity: nat, s: State, n: nat, i: nat)
    requires Can(s, Send(n))
    ensures Places(Next(capacity, s, Send(n)), i) == Places(s, i)
  {
    Snoc(s.queue, Job(n, s.done), JobOf(i));
    hide Sum;
  }

  lemma FinishMoves(capacity: nat, s: State, w: nat, i: nat)
    requires Can(s, Finish(w))
    ensures Places(Next(capacity, s, Finish(w)), i) == Places(s, i)
  {
    Replace(s.workers, w, if s.workers[w].draining then Draining else Waiting, RunOf(i));
    Snoc(s.finished, s.workers[w].sender, Same(i));
    hide Sum;
  }

  lemma WorkerRests(s: State, w: nat, to: Worker, i: nat)
    requires w < |s.workers| && !s.workers[w].Running? && !to.Running?
    ensures Places(s.(workers := s.workers[w := to]), i) == Places(s, i)
  {
    Replace(s.workers, w, to, RunOf(i));
    hide Sum;
  }

  /** No step loses a turn or doubles it. */
  lemma StepMoves(capacity: nat, s: State, step: Step, i: nat)
    requires Can(s, step)
    ensures Places(Next(capacity, s, step), i) == Places(s, i) + if step.Arrive? && i == |s.senders| then 1 else 0
  {
    match step {
      case Send(n) => SendMoves(capacity, s, n, i);
      case Take(w) => TakingMoves(s, w, false, i);
      case DrainTake(w) => TakingMoves(s, w, true, i);
      case Finish(w) => FinishMoves(capacity, s, w, i);
      case SeeDone(w) => WorkerRests(s, w, Draining, i);
      case Exit(w) => WorkerRests(s, w, Exited, i);
      case _ => hide Sum;
    }
  }

  // ----- order, bound and shutdown -----

  ghost predicate AnyExited(s: State) {
    exists w :: 0 <= w < |s.workers| && s.workers[w].Exited?
  }

  ghost predicate AllExited(s: State) {
    forall w :: 0 <= w < |s.workers| ==> s.workers[w].Exited?
  }

  /** The queue is what was sent and not yet taken, in order, and never over capacity. */
  ghost predicate Fifo(capacity: nat, s: State) {
    s.taken <= |s.sent| && s.queue == s.sent[s.taken..] && |s.queue| <= capacity
  }

  /** Each sender sends at most once, and only then counts as having sent. */
  ghost predicate SentOnce(s: State) {
    && (forall a :: 0 <= a < |s.sent| ==> SenderIs(s, s.sent[a].sender, Sent))
    && (forall a, b :: 0 <= a < b < |s.sent| ==> s.sent[a].sender != s.sent[b].sender)
  }

  /** Only a sender caught between its check and its send by the close can send late. */
  ghost predicate LateIsKnown(s: State) {
    && (forall j :: j in s.sent && j.late ==> s.done && j.sender in s.atClose)
    && (s.done ==> CheckedSenders(s) <= s.atClose)
  }

  /** Workers drain and exit only after the close, and once one has exited only late jobs wait. */
  ghost predicate DrainedFirst(s: State) {
    && (forall w :: 0 <= w < |s.workers| ==>
          (s.workers[w].Draining? || s.workers[w].Exited? || (s.workers[w].Running? && s.workers[w].draining) ==> s.done))
    && (AnyExited(s) ==> forall j :: j in s.queue ==> j.late)
  }

  lemma StepKeepsFifo(capacity: nat, s: State, step: Step)
    requires Fifo(capacity, s) && Can(s, step)
    ensures Fifo(capacity, Next(capacity, s, step))
  {
    if step.Send? && |s.queue| < capacity {
      var j := Job(step.sender, s.done);
      assert (s.sent + [j])[s.taken..] == s.sent[s.taken..] + [j];
    } else if step.Take? || step.DrainTake? {
      assert s.sent[s.taken..][1..] == s.sent[s.taken + 1..];
    }
  }

  lemma StepKeepsSentOnce(capacity: nat, s: State, step: Step)
    requires SentOnce(s) && Can(s, step)
    ensures SentOnce(Next(capacity, s, step))
  {
  }

  lemma StepKeepsLateKnown(capacity: nat, s: State, step: Step)
    requires LateIsKnown(s) && Can(s, step)
    ensures LateIsKnown(Next(capacity, s, step))
  {
    var s' := Next(capacity, s, step);
    if s'.done {
      forall i | i in CheckedSenders(s') ensures i in s'.atClose {
        if s.done {
          assert i in CheckedSenders(s);
        }
      }
    }
  }

  lemma StepKeepsDrainedFirst(capacity: nat, s: State, step: Step)
    requires DrainedFirst(s) && Can(s, step)
    ensures DrainedFirst(Next(capacity, s, step))
  {
    var s' := Next(capacity, s, step);
    if AnyExited(s') {
      var w :| 0 <= w < |s'.workers| && s'.workers[w].Exited?;
      if step != Exit(w) {
        assert s.workers[w].Exited?;
      }
    }
  }

  ghost predicate Sound(capacity: nat, s: State) {
    OncePlaced(s) && Fifo(capacity, s) && SentOnce(s) && LateIsKnown(s) && DrainedFirst(s)
  }

  lemma StepKeepsSound(capacity: nat, s: State, step: Step)
    requires Sound(capacity, s) && Can(s, step)
    ensures Sound(capacity, Next(capacity, s, step))
  {
    StepKeepsFifo(capacity, s, step);
    StepKeepsSentOnce(capacity, s, step);
    StepKeepsLateKnown(capacity, s, step);
    StepKeepsDrainedFirst(capacity, s, step);
    hide Places, Fifo, SentOnce, LateIsKnown, DrainedFirst;
    forall i: nat ensures Places(Next(capacity, s, step), i) == if i < |Next(capacity, s, step).senders| then 1 else 0 {
      StepMoves(capacity, s, step, i);
    }
  }

  lemma StartsSound(capacity: nat, workers: nat)
    ensures Sound(capacity, Started(workers))
  {
    forall i: nat ensures Places(Started(workers), i) == 0 {
      Nothing(Started(workers).workers, RunOf(i));
    }
  }

  ghost predicate Possible(capacity: nat, s: State, steps: seq<Step>)
    decreases |steps|, 0
  {
    || steps == []
    || (Possible(capacity, s, steps[..|steps| - 1]) && Can(After(capacity, s, steps[..|steps| - 1]), steps[|steps| - 1]))
  }

  ghost function After(capacity: nat, s: State, steps: seq<Step>): State
    requires Possible(capacity, s, steps)
    decreases |steps|, 1
  {
    if steps == [] then s else Next(capacity, After(capacity, s, steps[..|steps| - 1]), steps[|steps| - 1])
  }

  /** In every interleaving every arrived turn is in exactly one place, jobs leave in the order
      they were accepted from a queue that never overflows, and only senders caught by the close
      send late. */
  lemma {:induction false} EveryRunIsSound(capacity: nat, workers: nat, steps: seq<Step>)
    requires Possible(capacity, Started(workers), steps)
    ensures Sound(capacity, After(capacity, Started(workers), steps))
  {
    hide Sound, Can, Next;
    if steps == [] {
      StartsSound(capacity, workers);
    } else {
      var init := steps[..|steps| - 1];
      EveryRunIsSound(capacity, workers, init);
      StepKeepsSound(capacity, After(capacity, Started(workers), init), steps[|steps| - 1]);
    }
  }

  /** Accepted jobs are the disjoint union of queued, running and handled. */
  lemma AcceptedIsSomewhereOnce(capacity: nat, s: State, a: nat)
    requires Sound(capacity, s) && a < |s.sent|
    ensures
      var i := s.sent[a].sender;
      Sum(s.queue, JobOf(i)) + Sum(s.workers, RunOf(i)) + Sum(s.finished, Same(i)) == 1
  {
    var i := s.sent[a].sender;
    assert Places(s, i) == 1;
    assert SenderIs(s, i, Sent);
    hide Sum;
  }

  /** A job waits exactly until it is taken. */
  lemma QueuedUntilTaken(capacity: nat, s: State, a: nat)
    requires Sound(capacity, s) && a < |s.sent|
    ensures Sum(s.queue, JobOf(s.sent[a].sender)) == if a < s.taken then 0 else 1
  {
    var i := s.sent[a].sender;
    if a < s.taken {
      forall j | j in s.queue ensures j.sender != i {
        var b :| 0 <= b < |s.queue| && s.queue[b] == j;
        assert s.sent[s.taken + b] == j;
      }
      Nothing(s.queue, JobOf(i));
    } else {
      assert s.queue[a - s.taken] == s.sent[a];
      AtLeast(s.queue, a - s.taken, JobOf(i));
      AcceptedIsSomewhereOnce(capacity, s, a);
      hide Sum;
    }
  }

  lemma UntakenWaits(capacity: nat, s: State, a: nat)
    requires Fifo(capacity, s) && s.taken <= a < |s.sent|
    ensures s.sent[a] in s.queue
  {
    assert s.queue[a - s.taken] == s.sent[a];
  }

  /** When every worker has exited, a job has been handled exactly once unless it still waits, and
      what still waits was sent after the close by a sender already past its check: every job
      accepted before the stop has been handled. */
  lemma ShutdownHandlesEverythingEarly(capacity: nat, s: State, a: nat)
    requires Sound(capacity, s) && s.workers != [] && AllExited(s) && a < |s.sent|
    ensures Sum(s.finished, Same(s.sent[a].sender)) == if s.sent[a] in s.queue then 0 else 1
    ensures s.sent[a] in s.queue ==> s.sent[a].late && s.sent[a].sender in s.atClose
  {
    var i := s.sent[a].sender;
    AcceptedIsSomewhereOnce(capacity, s, a);
    Nothing(s.workers, RunOf(i));
    assert s.workers[0].Exited?;
    if s.sent[a] in s.queue {
      var b :| 0 <= b < |s.queue| && s.queue[b] == s.sent[a];
      AtLeast(s.queue, b, JobOf(i));
    } else {
      QueuedUntilTaken(capacity, s, a);
      if a >= s.taken {
        UntakenWaits(capacity, s, a);
      }
    }
    hide Sum;
  }

  /** How many jobs had been accepted the last time some worker was still there. */
  ghost function SentAlive(capacity: nat, workers: nat, steps: seq<Step>): nat
    requires Possible(capacity, Started(workers), steps)
  {
    if !AllExited(After(capacity, Started(workers), steps)) then |After(capacity, Started(workers), steps).sent|
    else if steps == [] then 0
    else SentAlive(capacity, workers, steps[..|steps| - 1])
  }

  /** The last worker leaves an empty queue, and after it nobody takes anything. */
  lemma StepAfterLastExit(capacity: nat, s: State, step: Step)
    requires Fifo(capacity, s) && Can(s, step) && AllExited(Next(capacity, s, step))
    ensures Next(capacity, s, step).taken == if AllExited(s) then s.taken else |s.sent|
  {
    var s' := Next(capacity, s, step);
    if step.Exit? {
      assert s.queue == [];
    } else {
      forall w | 0 <= w < |s.workers| ensures s.workers[w].Exited? {
        assert s'.workers[w].Exited?;
      }
    }
  }

  /** Once every worker has exited, what was taken is what had been accepted while one was there. */
  lemma {:induction false} TakenWhileAlive(capacity: nat, workers: nat, steps: seq<Step>)
    requires Possible(capacity, Started(workers), steps) && AllExited(After(capacity, Started(workers), steps))
    ensures After(capacity, Started(workers), steps).taken == SentAlive(capacity, workers, steps)
  {
    if steps != [] {
      var init, last := steps[..|steps| - 1], steps[|steps| - 1];
      var s := After(capacity, Started(workers), init);
      EveryRunIsSound(capacity, workers, init);
      StepAfterLastExit(capacity, s, last);
      hide AllExited, Can, Next, Sound;
      if AllExited(s) {
        TakenWhileAlive(capacity, workers, init);
      }
    }
  }

  /** Exactly when an accepted job is lost: over every run that ends with all workers gone, a job
      has been handled, once, if and only if it was accepted before the last worker left; any later
      one still waits and always will. */
  lemma HandledIffSentAlive(capacity: nat, workers: nat, steps: seq<Step>, a: nat)
    requires Possible(capacity, Started(workers), steps)
    requires AllExited(After(capacity, Started(workers), steps)) && a < |After(capacity, Started(workers), steps).sent|
    ensures
      var s, alive := After(capacity, Started(workers), steps), SentAlive(capacity, workers, steps);
      && Sum(s.finished, Same(s.sent[a].sender)) == (if a < alive then 1 else 0)
      && Sum(s.queue, JobOf(s.sent[a].sender)) == (if a < alive then 0 else 1)
  {
    var s := After(capacity, Started(workers), steps);
    EveryRunIsSound(capacity, workers, steps);
    TakenWhileAlive(capacity, workers, steps);
    QueuedUntilTaken(capacity, s, a);
    AcceptedIsSomewhereOnce(capacity, s, a);
    Nothing(s.workers, RunOf(s.sent[a].sender));
    hide Sum;
  }

  /** The race is real: a sender past its check can send after the last worker has gone. */
  lemma ALateJobCanBeStranded(capacity: nat, t: Turn)
    requires capacity > 0
    ensures exists s :: Reachable(capacity, Started(1), s) && AllExited(s) && s.queue == [Job(0, true)] && s.finished == []
  {
    var s0 := Started(1);
    assert Possible(capacity, s0, []) && After(capacity, s0, []) == s0;
    assert Reachable(capacity, s0, s0);
    hide Reachable;
    var s1 := Move(capacity, s0, s0, Arrive(t));
    var s2 := Move(capacity, s0, s1, Check(0));
    var s3 := Move(capacity, s0, s2, Close);
    var s4 := Move(capacity, s0, s3, SeeDone(0));
    var s5 := Move(capacity, s0, s4, Exit(0));
    var s6 := Move(capacity, s0, s5, Send(0));
    assert AllExited(s6) && s6.queue == [Job(0, true)] && s6.finished == [];
  }

  ghost predicate Reachable(capacity: nat, s0: State, s: State) {
    exists steps :: Possible(capacity, s0, steps) && After(capacity, s0, steps) == s
  }

  lemma Move(capacity: nat, s0: State, s: State, step: Step) returns (s': State)
    requires Reachable(capacity, s0, s) && Can(s, step)
    ensures s' == Next(capacity, s, step) && Reachable(capacity, s0, s')
  {
    hide Can, Next;
    var steps :| Possible(capacity, s0, steps) && After(capacity, s0, steps) == s;
    s' := Next(capacity, s, step);
    OneMore(capacity, s0, steps, step);
  }

  lemma OneMore(capacity: nat, s: State, steps: seq<Step>, step: Step)
    requires Possible(capacity, s, steps) && Can(After(capacity, s, steps), step)
    ensures Possible(capacity, s, steps + [step])
    ensures After(capacity, s, steps + [step]) == Next(capacity, After(capacity, s, steps), step)
  {
    hide Can, Next;
    assert (steps + [step])[..|steps|] == steps;
  }
}
