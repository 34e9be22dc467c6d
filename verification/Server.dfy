/** The whole server as an interleaving machine: workers run orchestrator turns side by side over
    one toggle and one memory store while operators flip the toggle and the budget watcher trips
    it. A run's answers are fixed when it starts and an effect may only happen while the shared
    state agrees with them, so every real interleaving is one of the executions below. */
module Server {
  import opened Domain
  import opened Trace
  import opened Memory
  import opened Guarantees
  import opened Sums
  import Orchestrator
  import Budget
  import Stores

  datatype Settings = Settings(deps: Orchestrator.Deps, budget: Budget.Config)

  /** A worker and the effects its current run still has to make; none left means idle. */
  datatype Worker = Worker(run: nat, rest: seq<Event>)

  datatype Emission = Emission(run: nat, event: Event)

  /** The spend since start-up: every charge tallied, the bucket, and the trips under way (tallied
      but not yet applied to the toggle) and applied. */
  datatype Spend = Spend(charged: seq<Budget.Call>, bucket: Budget.Bucket, pending: nat, applied: nat)

  datatype State = State(
    enabled: bool,
    workers: seq<Worker>,
    started: nat,
    memory: map<Key, Record>,
    emitted: seq<Emission>,
    spend: Spend)

  datatype Step =
    | Start(worker: nat, input: Input, oracle: Orchestrator.Oracle)
    | Emit(worker: nat)
    | Flip(to: bool)
    | Tally(call: Budget.Call)
    | Trip

  const NO_SPEND := Spend([], Budget.FRESH, 0, 0)

  /** A fresh process over whatever memory the store had kept. */
  function Boot(workers: nat, enabled: bool, kept: map<Key, Record>): State {
    State(enabled, seq(workers, i => Worker(0, [])), 0, kept, [], NO_SPEND)
  }

  /** The dispatcher only ever lets guest messages into a turn. */
  predicate FromGuest(inp: Input) {
    forall m :: m in inp.turn.messages ==> m.role == Guest
  }

  /** The shared state gives the answer this effect was made with. */
  predicate Agrees(s: State, e: Event) {
    match e
    case ToggleRead(enabled) => enabled == s.enabled
    case MemoryRead(key, found) => found == Stores.Lookup(s.memory, key)
    case MemoryClosed(found, closing, _) => found == Stores.Lookup(s.memory, closing.input.turn.key)
    case _ => true
  }

  predicate Can(s: State, step: Step) {
    match step
    case Start(w, inp, _) => w < |s.workers| && s.workers[w].rest == [] && FromGuest(inp)
    case Emit(w) => w < |s.workers| && s.workers[w].rest != [] && Agrees(s, s.workers[w].rest[0])
    case Flip(_) => true
    case Tally(_) => true
    case Trip => s.spend.pending > 0
  }

  function Written(st: Settings, memory: map<Key, Record>, e: Event): map<Key, Record> {
    if e.MemoryClosed? then memory[e.closing.input.turn.key := Closed(st.deps.limits, e.found, e.closing, e.summarizer)]
    else memory
  }

  function Spent(cfg: Budget.Config, p: Spend, c: Budget.Call): Spend {
    if !Budget.Charged(cfg, c) then p
    else Spend(p.charged + [c], Budget.Tallied(cfg, p.bucket, c),
               p.pending + (if Budget.Trips(cfg, p.bucket, c) then 1 else 0), p.applied)
  }

  function Emitting(st: Settings, s: State, w: nat): State
    requires w < |s.workers| && s.workers[w].rest != []
  {
    var worker := s.workers[w];
    s.(workers := s.workers[w := Worker(worker.run, worker.rest[1..])],
       memory := Written(st, s.memory, worker.rest[0]),
       emitted := s.emitted + [Emission(worker.run, worker.rest[0])])
  }

  function Next(st: Settings, s: State, step: Step): State
    requires Can(s, step)
  {
    match step
    case Start(w, inp, o) =>
      s.(workers := s.workers[w := Worker(s.started, Orchestrator.RunLog(st.deps, inp, o))], started := s.started + 1)
    case Emit(w) => Emitting(st, s, w)
    case Flip(to) => s.(enabled := to)
    case Tally(c) => s.(spend := Spent(st.budget, s.spend, c))
    case Trip => s.(enabled := false, spend := s.spend.(pending := s.spend.pending - 1, applied := s.spend.applied + 1))
  }

  /** The steps can be taken one after the other from s. */
  ghost predicate Possible(st: Settings, s: State, steps: seq<Step>)
    decreases |steps|, 0
  {
    steps == [] || (Possible(st, s, steps[..|steps| - 1]) && Can(After(st, s, steps[..|steps| - 1]), steps[|steps| - 1]))
  }

  ghost function After(st: Settings, s: State, steps: seq<Step>): State
    requires Possible(st, s, steps)
    decreases |steps|, 1
  {
    if steps == [] then s else Next(st, After(st, s, steps[..|steps| - 1]), steps[|steps| - 1])
  }

  // ----- what every worker keeps -----

  ghost predicate WellBehaved(s: State) {
    forall w :: 0 <= w < |s.workers| ==>
      && Guarded(s.workers[w].rest) && PostsOnce(s.workers[w].rest)
      && (s.workers[w].run < s.started || s.workers[w].rest == [])
  }

  lemma TailIsWellBehaved(rest: seq<Event>)
    requires rest != [] && Guarded(rest) && PostsOnce(rest)
    ensures Guarded(rest[1..]) && PostsOnce(rest[1..])
  {
    forall i, j | 0 <= i < j < |rest| - 1
      ensures rest[1..][i] == ToggleRead(false) ==> !Action(rest[1..][j])
      ensures !(rest[1..][i].NotePosted? && rest[1..][j].NotePosted?)
    {
      assert rest[1..][i] == rest[i + 1] && rest[1..][j] == rest[j + 1];
    }
  }

  lemma StepKeepsWellBehaved(st: Settings, s: State, step: Step)
    requires WellBehaved(s) && Can(s, step)
    ensures WellBehaved(Next(st, s, step))
  {
    hide Guarded, PostsOnce, Orchestrator.RunLog, Written, Spent, Agrees, FromGuest;
    match step {
      case Start(w, inp, o) => RunLogIsGuarded(st.deps, inp, o);
      case Emit(w) => TailIsWellBehaved(s.workers[w].rest);
      case _ =>
    }
  }

  lemma BootIsWellBehaved(workers: nat, enabled: bool, kept: map<Key, Record>)
    ensures WellBehaved(Boot(workers, enabled, kept))
  {
  }

  lemma {:induction false} RunsAreWellBehaved(st: Settings, workers: nat, enabled: bool, kept: map<Key, Record>, steps: seq<Step>)
    requires Possible(st, Boot(workers, enabled, kept), steps)
    ensures WellBehaved(After(st, Boot(workers, enabled, kept), steps))
    ensures |After(st, Boot(workers, enabled, kept), steps).workers| == workers
  {
    hide WellBehaved;
    if steps == [] {
      BootIsWellBehaved(workers, enabled, kept);
    } else {
      var init := steps[..|steps| - 1];
      RunsAreWellBehaved(st, workers, enabled, kept, init);
      StepKeepsWellBehaved(st, After(st, Boot(workers, enabled, kept), init), steps[|steps| - 1]);
    }
  }

  // ----- the kill-switch over whole executions -----

  /** Past its final toggle read: a post is coming and no toggle read stands before it. */
  ghost predicate Armed(rest: seq<Event>) {
    exists j :: 0 <= j < |rest| && rest[j].NotePosted? && !ReadsBefore(rest, j)
  }

  ghost function ArmedLoad(): Worker -> nat {
    (w: Worker) => if Armed(w.rest) then 1 else 0
  }

  ghost function ArmedCount(ws: seq<Worker>): nat {
    Sum(ws, ArmedLoad())
  }

  function PostLoad(): Emission -> nat {
    (e: Emission) => if e.event.NotePosted? then 1 else 0
  }

  function Posts(emitted: seq<Emission>): nat {
    Sum(emitted, PostLoad())
  }

  lemma ArmedAtMostWorkers(ws: seq<Worker>)
    ensures ArmedCount(ws) <= |ws|
  {
    hide Armed;
    AtMostLength(ws, ArmedLoad());
  }

  lemma ArmedReplaced(ws: seq<Worker>, w: nat, worker: Worker)
    requires w < |ws|
    ensures ArmedCount(ws[w := worker]) + (if Armed(ws[w].rest) then 1 else 0)
            == ArmedCount(ws) + (if Armed(worker.rest) then 1 else 0)
  {
    hide Armed;
    Replace(ws, w, worker, ArmedLoad());
  }

  lemma PostsSnoc(emitted: seq<Emission>, e: Emission)
    ensures Posts(emitted + [e]) == Posts(emitted) + (if e.event.NotePosted? then 1 else 0)
  {
    Snoc(emitted, e, PostLoad());
  }

  lemma CalmIsUnarmed(rest: seq<Event>)
    requires Calm(rest)
    ensures !Armed(rest)
  {
  }

  /** While the toggle is off, a worker loses its one post by making it and never gains one. */
  lemma EmittingDisarms(rest: seq<Event>)
    requires rest != [] && Guarded(rest) && PostsOnce(rest) && rest[0] != ToggleRead(true)
    ensures (if rest[0].NotePosted? then 1 else 0) + (if Armed(rest[1..]) then 1 else 0) <= (if Armed(rest) then 1 else 0)
  {
    var tail := rest[1..];
    if rest[0].NotePosted? {
      assert !ReadsBefore(rest, 0);
      forall j | 0 <= j < |tail| ensures !tail[j].NotePosted? {
        assert tail[j] == rest[j + 1];
      }
    } else if Armed(tail) {
      var j :| 0 <= j < |tail| && tail[j].NotePosted? && !ReadsBefore(tail, j);
      assert rest[j + 1] == tail[j] && Action(rest[j + 1]);
      if !rest[0].ToggleRead? {
        TailReadsBefore(rest, j);
      }
    }
  }

  lemma TailReadsBefore(rest: seq<Event>, j: nat)
    requires rest != [] && !rest[0].ToggleRead?
    ensures ReadsBefore(rest, j + 1) ==> ReadsBefore(rest[1..], j)
  {
    if ReadsBefore(rest, j + 1) {
      var i :| 0 <= i < j + 1 && i < |rest| && rest[i].ToggleRead?;
      assert rest[1..][i - 1] == rest[i];
    }
  }

  lemma CalmTail(rest: seq<Event>)
    requires rest != [] && Guarded(rest) && Calm(rest) && rest[0] != ToggleRead(true)
    ensures Calm(rest[1..]) && !Action(rest[0])
  {
    var tail := rest[1..];
    if rest[0].ToggleRead? {
      forall j | 0 <= j < |tail| ensures !Action(tail[j]) {
        assert tail[j] == rest[j + 1];
      }
    } else {
      forall j | 0 <= j < |tail| && Action(tail[j]) ensures ReadsBefore(tail, j) {
        assert tail[j] == rest[j + 1];
        TailReadsBefore(rest, j);
      }
      assert !ReadsBefore(rest, 0);
    }
  }

  predicate ReEnables(step: Step) {
    step == Flip(true)
  }

  /** Nothing costly or visible was emitted since by a run numbered from first on, and such runs
      have nothing of the kind ahead of their next toggle read. */
  ghost predicate LateRunsAreQuiet(s: State, since: nat, first: nat) {
    && (forall w :: 0 <= w < |s.workers| && s.workers[w].run >= first ==> Calm(s.workers[w].rest))
    && (forall i :: since <= i < |s.emitted| && s.emitted[i].run >= first ==> !Action(s.emitted[i].event))
  }

  /** The switched-off invariant, relative to the state s0 at the flip. */
  ghost predicate Stopped(s0: State, s: State) {
    && !s.enabled && WellBehaved(s)
    && s0.started <= s.started
    && Posts(s.emitted) + ArmedCount(s.workers) <= Posts(s0.emitted) + ArmedCount(s0.workers)
    && LateRunsAreQuiet(s, |s0.emitted|, s0.started)
    && s0.emitted <= s.emitted
  }

  lemma EmitKeepsStopped(st: Settings, s0: State, s: State, w: nat)
    requires Stopped(s0, s) && Can(s, Emit(w))
    ensures Stopped(s0, Emitting(st, s, w))
  {
    hide Guarded, PostsOnce, Armed, Calm, Written, ArmedCount, Posts, Action;
    var worker := s.workers[w];
    var e := worker.rest[0];
    assert e != ToggleRead(true);
    StepKeepsWellBehaved(st, s, Emit(w));
    EmittingDisarms(worker.rest);
    ArmedReplaced(s.workers, w, Worker(worker.run, worker.rest[1..]));
    PostsSnoc(s.emitted, Emission(worker.run, e));
    if worker.run >= s0.started {
      CalmTail(worker.rest);
    }
  }

  lemma StartKeepsStopped(st: Settings, s0: State, s: State, w: nat, inp: Input, o: Orchestrator.Oracle)
    requires Stopped(s0, s) && Can(s, Start(w, inp, o))
    ensures Stopped(s0, Next(st, s, Start(w, inp, o)))
  {
    hide Guarded, PostsOnce, Armed, Calm, Written, ArmedCount, Posts, Action, FromGuest, Orchestrator.RunLog;
    StepKeepsWellBehaved(st, s, Start(w, inp, o));
    var log := Orchestrator.RunLog(st.deps, inp, o);
    RunLogIsGuarded(st.deps, inp, o);
    CalmIsUnarmed(log);
    ArmedReplaced(s.workers, w, Worker(s.started, log));
  }

  lemma StepKeepsStopped(st: Settings, s0: State, s: State, step: Step)
    requires Stopped(s0, s) && Can(s, step) && !ReEnables(step)
    ensures Stopped(s0, Next(st, s, step))
  {
    match step {
      case Start(w, inp, o) => StartKeepsStopped(st, s0, s, w, inp, o);
      case Emit(w) => EmitKeepsStopped(st, s0, s, w);
      case _ =>
        hide Guarded, PostsOnce, Calm, ArmedCount, Posts, Action, Spent;
    }
  }

  lemma BeginsStopped(s: State)
    requires WellBehaved(s) && !s.enabled
    ensures Stopped(s, s)
  {
  }

  lemma {:induction false} StaysStopped(st: Settings, s: State, steps: seq<Step>)
    requires WellBehaved(s) && !s.enabled && Possible(st, s, steps)
    requires forall i :: 0 <= i < |steps| ==> !ReEnables(steps[i])
    ensures Stopped(s, After(st, s, steps))
  {
    hide Stopped;
    if steps == [] {
      BeginsStopped(s);
    } else {
      var init := steps[..|steps| - 1];
      StaysStopped(st, s, init);
      StepKeepsStopped(st, s, After(st, s, init), steps[|steps| - 1]);
    }
  }

  /** Once a flip to off has taken effect and nobody re-enables, the notes still posted number at
      most the runs past their final toggle read, hence at most the workers; and no run started
      later ever asks the classifier, qualifier, generator or critic, or posts. */
  lemma KillSwitchHolds(st: Settings, workers: nat, enabled: bool, kept: map<Key, Record>, before: seq<Step>, after: seq<Step>)
    requires Possible(st, Boot(workers, enabled, kept), before)
    requires
      var s0 := After(st, Boot(workers, enabled, kept), before);
      !s0.enabled && Possible(st, s0, after) && forall i :: 0 <= i < |after| ==> !ReEnables(after[i])
    ensures
      var s0 := After(st, Boot(workers, enabled, kept), before);
      var s1 := After(st, s0, after);
      && Posts(s1.emitted) - Posts(s0.emitted) <= ArmedCount(s0.workers) - ArmedCount(s1.workers) <= workers
      && s0.emitted <= s1.emitted
      && (forall i :: |s0.emitted| <= i < |s1.emitted| && s1.emitted[i].run >= s0.started ==> !Action(s1.emitted[i].event))
  {
    hide After, Possible, WellBehaved, Posts, ArmedCount, Action;
    RunsAreWellBehaved(st, workers, enabled, kept, before);
    var s0 := After(st, Boot(workers, enabled, kept), before);
    StaysStopped(st, s0, after);
    ArmedAtMostWorkers(s0.workers);
  }

  // ----- memory never invents a delivered reply -----

  ghost predicate Delivered(emitted: seq<Emission>, k: Key, body: string, at: int) {
    exists i :: 0 <= i < |emitted| && Accepts(emitted[i].event, k, body, at)
  }

  ghost predicate DeliveredAt(emitted: seq<Emission>, k: Key, at: int) {
    exists i :: 0 <= i < |emitted| && emitted[i].event.NotePosted? && emitted[i].event.ok && emitted[i].event.key == k && emitted[i].event.at == at
  }

  /** Every host message of r was kept from before the process started or delivered since, with its
      body and time; and the auto-send time is the kept one or that of a delivery since. */
  ghost predicate RecordBacked(r: Record, kept: Record, k: Key, emitted: seq<Emission>) {
    && (forall m :: m in r.thread && m.role == Host ==> m in kept.thread || Delivered(emitted, k, m.body, m.createdAt))
    && (r.lastAutoSendAt == kept.lastAutoSendAt || (r.lastAutoSendAt.Some? && DeliveredAt(emitted, k, r.lastAutoSendAt.value)))
  }

  ghost predicate MemoryBacked(memory: map<Key, Record>, kept: map<Key, Record>, emitted: seq<Emission>) {
    forall k :: RecordBacked(Stores.Lookup(memory, k), Stores.Lookup(kept, k), k, emitted)
  }

  /** The close is of guest messages, and if it claims a sent reply the note is either still
      ahead of it in this run or already out. */
  ghost predicate Honest(rest: seq<Event>, i: nat, emitted: seq<Emission>)
    requires i < |rest| && rest[i].MemoryClosed?
  {
    var c := rest[i].closing;
    && FromGuest(c.input)
    && (c.sent ==>
          && c.reply.Some?
          && (AcceptedBefore(rest, i, c.input.turn.key, c.reply.value.body, c.input.now)
              || Delivered(emitted, c.input.turn.key, c.reply.value.body, c.input.now)))
  }

  ghost predicate AllHonest(rest: seq<Event>, emitted: seq<Emission>) {
    forall i :: 0 <= i < |rest| && rest[i].MemoryClosed? ==> Honest(rest, i, emitted)
  }

  ghost predicate Truthful(s: State, kept: map<Key, Record>) {
    && MemoryBacked(s.memory, kept, s.emitted)
    && forall w :: 0 <= w < |s.workers| ==> AllHonest(s.workers[w].rest, s.emitted)
  }

  lemma DeliveredMore(emitted: seq<Emission>, e: Emission, k: Key, body: string, at: int)
    ensures Delivered(emitted, k, body, at) ==> Delivered(emitted + [e], k, body, at)
    ensures DeliveredAt(emitted, k, at) ==> DeliveredAt(emitted + [e], k, at)
    ensures Accepts(e.event, k, body, at) ==> Delivered(emitted + [e], k, body, at)
  {
    var more := emitted + [e];
    assert more[|emitted|] == e;
    if Delivered(emitted, k, body, at) {
      var i :| 0 <= i < |emitted| && Accepts(emitted[i].event, k, body, at);
      assert more[i] == emitted[i];
    }
    if DeliveredAt(emitted, k, at) {
      var i :| 0 <= i < |emitted| && emitted[i].event.NotePosted? && emitted[i].event.ok && emitted[i].event.key == k && emitted[i].event.at == at;
      assert more[i] == emitted[i];
    }
  }

  lemma RecordBackedMore(r: Record, kept: Record, k: Key, emitted: seq<Emission>, e: Emission)
    requires RecordBacked(r, kept, k, emitted)
    ensures RecordBacked(r, kept, k, emitted + [e])
  {
    hide Delivered, DeliveredAt, Accepts;
    DeliveredMore(emitted, e, k, "", if r.lastAutoSendAt.Some? then r.lastAutoSendAt.value else 0);
    forall m | m in r.thread && m.role == Host ensures m in kept.thread || Delivered(emitted + [e], k, m.body, m.createdAt) {
      DeliveredMore(emitted, e, k, m.body, m.createdAt);
    }
  }

  lemma MemoryBackedMore(memory: map<Key, Record>, kept: map<Key, Record>, emitted: seq<Emission>, e: Emission)
    requires MemoryBacked(memory, kept, emitted)
    ensures MemoryBacked(memory, kept, emitted + [e])
  {
    hide Delivered, DeliveredAt, Accepts;
    forall k ensures RecordBacked(Stores.Lookup(memory, k), Stores.Lookup(kept, k), k, emitted + [e]) {
      assert RecordBacked(Stores.Lookup(memory, k), Stores.Lookup(kept, k), k, emitted);
      RecordBackedMore(Stores.Lookup(memory, k), Stores.Lookup(kept, k), k, emitted, e);
    }
  }

  lemma HonestMore(rest: seq<Event>, emitted: seq<Emission>, e: Emission)
    requires AllHonest(rest, emitted)
    ensures AllHonest(rest, emitted + [e])
  {
    hide Delivered, DeliveredAt, AcceptedBefore, Accepts, FromGuest;
    forall i | 0 <= i < |rest| && rest[i].MemoryClosed? ensures Honest(rest, i, emitted + [e]) {
      assert Honest(rest, i, emitted);
      if rest[i].closing.sent {
        DeliveredMore(emitted, e, rest[i].closing.input.turn.key, rest[i].closing.reply.value.body, rest[i].closing.input.now);
      }
    }
  }

  lemma AcceptedInTail(rest: seq<Event>, i: nat, emitted: seq<Emission>, run: nat, k: Key, body: string, at: int)
    requires rest != [] && AcceptedBefore(rest, i + 1, k, body, at)
    ensures AcceptedBefore(rest[1..], i, k, body, at) || Delivered(emitted + [Emission(run, rest[0])], k, body, at)
  {
    var j :| 0 <= j < i + 1 && j < |rest| && Accepts(rest[j], k, body, at);
    if j == 0 {
      DeliveredMore(emitted, Emission(run, rest[0]), k, body, at);
    } else {
      assert rest[1..][j - 1] == rest[j];
    }
  }

  /** What an emitted effect owed is now on record. */
  lemma HonestTail(rest: seq<Event>, emitted: seq<Emission>, run: nat)
    requires rest != [] && AllHonest(rest, emitted)
    ensures AllHonest(rest[1..], emitted + [Emission(run, rest[0])])
  {
    hide Delivered, DeliveredAt, AcceptedBefore, Accepts, FromGuest;
    var e := Emission(run, rest[0]);
    var tail := rest[1..];
    forall i | 0 <= i < |tail| && tail[i].MemoryClosed? ensures Honest(tail, i, emitted + [e]) {
      assert tail[i] == rest[i + 1];
      assert Honest(rest, i + 1, emitted);
      var c := tail[i].closing;
      if c.sent {
        DeliveredMore(emitted, e, c.input.turn.key, c.reply.value.body, c.input.now);
        if AcceptedBefore(rest, i + 1, c.input.turn.key, c.reply.value.body, c.input.now) {
          AcceptedInTail(rest, i, emitted, run, c.input.turn.key, c.reply.value.body, c.input.now);
        }
      }
    }
  }

  lemma StartsHonest(st: Settings, inp: Input, o: Orchestrator.Oracle, emitted: seq<Emission>)
    requires FromGuest(inp)
    ensures AllHonest(Orchestrator.RunLog(st.deps, inp, o), emitted)
  {
    hide Delivered, AcceptedBefore, FromGuest;
    RunLogIsGuarded(st.deps, inp, o);
    hide Orchestrator.RunLog;
  }

  lemma DeliveredHasTime(emitted: seq<Emission>, k: Key, body: string, at: int)
    requires Delivered(emitted, k, body, at)
    ensures DeliveredAt(emitted, k, at)
  {
  }

  /** Closing an honest turn keeps its record backed. */
  lemma ClosedIsBacked(lim: Limits, r: Record, kept: Record, c: Closing, z: Summarizer, emitted: seq<Emission>)
    requires RecordBacked(r, kept, c.input.turn.key, emitted) && FromGuest(c.input)
    requires c.sent ==> c.reply.Some? && Delivered(emitted, c.input.turn.key, c.reply.value.body, c.input.now)
    ensures RecordBacked(Closed(lim, r, c, z), kept, c.input.turn.key, emitted)
  {
    var k := c.input.turn.key;
    var r' := Closed(lim, r, c, z);
    assert r'.lastAutoSendAt == if c.sent then Some(c.input.now) else r.lastAutoSendAt;
    hide Delivered, DeliveredAt;
    if c.sent {
      DeliveredHasTime(emitted, k, c.reply.value.body, c.input.now);
    }
    forall m | m in r'.thread && m.role == Host ensures m in kept.thread || Delivered(emitted, k, m.body, m.createdAt) {
      ClosedMembers(lim, r, c, z, m);
    }
  }

  lemma WrittenIsBacked(st: Settings, s: State, kept: map<Key, Record>, rest: seq<Event>, emitted: seq<Emission>)
    requires MemoryBacked(s.memory, kept, emitted) && rest != [] && Agrees(s, rest[0])
    requires rest[0].MemoryClosed? ==> Honest(rest, 0, emitted)
    ensures MemoryBacked(Written(st, s.memory, rest[0]), kept, emitted)
  {
    hide Delivered, DeliveredAt, Closed, Accepts, FromGuest;
    if rest[0].MemoryClosed? {
      var c := rest[0].closing;
      var k := c.input.turn.key;
      if c.sent {
        assert !AcceptedBefore(rest, 0, k, c.reply.value.body, c.input.now);
      }
      assert RecordBacked(rest[0].found, Stores.Lookup(kept, k), k, emitted);
      ClosedIsBacked(st.deps.limits, rest[0].found, Stores.Lookup(kept, k), c, rest[0].summarizer, emitted);
      var written := Written(st, s.memory, rest[0]);
      forall k' ensures RecordBacked(Stores.Lookup(written, k'), Stores.Lookup(kept, k'), k', emitted) {
        assert RecordBacked(Stores.Lookup(s.memory, k'), Stores.Lookup(kept, k'), k', emitted);
      }
    }
  }

  lemma EmitKeepsTruthful(st: Settings, s: State, kept: map<Key, Record>, w: nat)
    requires Truthful(s, kept) && Can(s, Emit(w))
    ensures Truthful(Emitting(st, s, w), kept)
  {
    var rest := s.workers[w].rest;
    var e := Emission(s.workers[w].run, rest[0]);
    WrittenIsBacked(st, s, kept, rest, s.emitted);
    MemoryBackedMore(Written(st, s.memory, rest[0]), kept, s.emitted, e);
    HonestTail(rest, s.emitted, s.workers[w].run);
    hide MemoryBacked, AllHonest, Written, Agrees;
    forall v | 0 <= v < |s.workers| ensures AllHonest(s.workers[v].rest, s.emitted + [e]) {
      HonestMore(s.workers[v].rest, s.emitted, e);
    }
  }

  lemma StepKeepsTruthful(st: Settings, s: State, kept: map<Key, Record>, step: Step)
    requires Truthful(s, kept) && Can(s, step)
    ensures Truthful(Next(st, s, step), kept)
  {
    hide MemoryBacked, AllHonest, Written, Agrees, FromGuest, Orchestrator.RunLog, Spent;
    match step {
      case Start(w, inp, o) => StartsHonest(st, inp, o, s.emitted);
      case Emit(w) => EmitKeepsTruthful(st, s, kept, w);
      case _ =>
    }
  }

  /** In every reachable state, whatever memory the process started with: each host message in a
      stored thread was kept from before or carries the body and time of a note the platform has
      accepted for that conversation since, and so does the auto-send time. */
  lemma {:induction false} MemoryNeverInventsReplies(st: Settings, workers: nat, enabled: bool, kept: map<Key, Record>, steps: seq<Step>)
    requires Possible(st, Boot(workers, enabled, kept), steps)
    ensures Truthful(After(st, Boot(workers, enabled, kept), steps), kept)
  {
    hide Truthful;
    if steps == [] {
      BootIsTruthful(workers, enabled, kept);
    } else {
      var init := steps[..|steps| - 1];
      MemoryNeverInventsReplies(st, workers, enabled, kept, init);
      StepKeepsTruthful(st, After(st, Boot(workers, enabled, kept), init), kept, steps[|steps| - 1]);
    }
  }

  lemma BootIsTruthful(workers: nat, enabled: bool, kept: map<Key, Record>)
    ensures Truthful(Boot(workers, enabled, kept), kept)
  {
  }

  // ----- the budget over whole executions -----

  predicate ByOperator(step: Step) {
    step.Flip?
  }

  ghost predicate Exact(cfg: Budget.Config, p: Spend) {
    && Budget.AllCharged(cfg, p.charged)
    && Budget.After(cfg, p.charged) == Budget.Ledger(p.bucket, p.pending + p.applied)
  }

  lemma SpentIsExact(cfg: Budget.Config, p: Spend, c: Budget.Call)
    requires Exact(cfg, p)
    ensures Exact(cfg, Spent(cfg, p, c))
  {
    hide Budget.Tallied, Budget.Trips, Budget.Cost;
    if Budget.Charged(cfg, c) {
      assert (p.charged + [c])[..|p.charged|] == p.charged;
    }
  }

  lemma NothingSpentIsExact(cfg: Budget.Config)
    ensures Exact(cfg, NO_SPEND)
  {
  }

  /** Every run of one day that reached the cap has one trip, applied or under way, and without an
      operator's flip the toggle is off exactly when a trip has been applied. */
  ghost predicate BudgetGoverns(st: Settings, enabled: bool, s: State, operated: bool) {
    && s.spend.applied + s.spend.pending == Budget.ReachedDays(st.budget, Budget.Days(s.spend.charged))
    && (!operated ==> s.enabled == (enabled && s.spend.applied == 0))
  }

  lemma StepKeepsExact(st: Settings, s: State, step: Step)
    requires Exact(st.budget, s.spend) && Can(s, step)
    ensures Exact(st.budget, Next(st, s, step).spend)
  {
    hide Agrees, FromGuest, Written, Orchestrator.RunLog;
    if step.Tally? {
      SpentIsExact(st.budget, s.spend, step.call);
    }
  }

  lemma {:induction false} SpendStaysExact(st: Settings, workers: nat, enabled: bool, kept: map<Key, Record>, steps: seq<Step>)
    requires Possible(st, Boot(workers, enabled, kept), steps)
    ensures
      var s := After(st, Boot(workers, enabled, kept), steps);
      && Exact(st.budget, s.spend)
      && ((forall i :: 0 <= i < |steps| ==> !ByOperator(steps[i])) ==> s.enabled == (enabled && s.spend.applied == 0))
  {
    hide Exact, Agrees, FromGuest, Written, Orchestrator.RunLog;
    if steps == [] {
      NothingSpentIsExact(st.budget);
    } else {
      var init, last := steps[..|steps| - 1], steps[|steps| - 1];
      SpendStaysExact(st, workers, enabled, kept, init);
      var s := After(st, Boot(workers, enabled, kept), init);
      StepKeepsExact(st, s, last);
      if !ByOperator(last) {
        StepTogglesOnTrip(st, s, last);
      }
    }
  }

  lemma StepTogglesOnTrip(st: Settings, s: State, step: Step)
    requires Can(s, step) && !ByOperator(step)
    ensures
      var s' := Next(st, s, step);
      && s'.enabled == (s.enabled && s'.spend.applied == s.spend.applied)
      && s'.spend.applied >= s.spend.applied
  {
    hide Agrees, FromGuest, Written, Orchestrator.RunLog, Budget.Tallied, Budget.Trips, Budget.Charged;
  }

  lemma BudgetGovernsToggle(st: Settings, workers: nat, enabled: bool, kept: map<Key, Record>, steps: seq<Step>)
    requires Possible(st, Boot(workers, enabled, kept), steps)
    ensures BudgetGoverns(st, enabled, After(st, Boot(workers, enabled, kept), steps), exists i :: 0 <= i < |steps| && ByOperator(steps[i]))
  {
    hide Next, Budget.Tallied, Budget.Reached, Budget.Cost;
    SpendStaysExact(st, workers, enabled, kept, steps);
    Budget.AccountsAreExact(st.budget, After(st, Boot(workers, enabled, kept), steps).spend.charged);
  }
}
