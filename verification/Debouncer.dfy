/** Per-conversation debounce buffers over timer goroutines
    (internal/infrastructure/debouncer/timed.go), on one integer clock. */
module Debouncer {
  import opened Domain

  /** A timer waits for its due time, has expired (its goroutine runs but has not yet taken the
      lock), or is spent: stopped in time or fired. */
  datatype Phase = Armed | Expired | Spent

  datatype Timer = Timer(key: Key, armedAt: int, due: int, phase: Phase)

  /** The buffer's timer is named by its index among all timers ever made. */
  datatype Buffer = Buffer(messages: seq<Message>, seen: set<string>, timer: Option<nat>, createdAt: int)

  datatype Config = Config(window: int, maxWait: int)

  datatype State = State(buffers: map<Key, Buffer>, timers: seq<Timer>, stopped: bool)

  const IDLE := State(map[], [], false)

  // ----- specification -----

  /** Stopping a timer that has already expired does not call its goroutine back. */
  function Stilled(timers: seq<Timer>, which: Option<nat>): seq<Timer> {
    if which.Some? && which.value < |timers| && timers[which.value].phase.Armed?
    then timers[which.value := timers[which.value].(phase := Spent)]
    else timers
  }

  /** When a buffer pushed to at this instant is due: the quiet window, cut at the hard ceiling,
      never in the past. */
  function DueAt(cfg: Config, createdAt: int, now: int): int {
    Max(now, Min(now + cfg.window, createdAt + cfg.maxWait))
  }

  predicate Accepted(s: State, k: Key, m: Message) {
    !s.stopped && !(k in s.buffers && m.postID in s.buffers[k].seen)
  }

  function BufferFor(s: State, k: Key, now: int): Buffer {
    if k in s.buffers then s.buffers[k] else Buffer([], {}, None, now)
  }

  function Pushed(cfg: Config, s: State, k: Key, m: Message, now: int): State {
    if !Accepted(s, k, m) then s
    else
      var b := BufferFor(s, k, now);
      State(s.buffers[k := Buffer(b.messages + [m], b.seen + {m.postID}, Some(|s.timers|), b.createdAt)],
            Stilled(s.timers, b.timer) + [Timer(k, now, DueAt(cfg, b.createdAt, now), Armed)],
            false)
  }

  function Cancelled(s: State, k: Key, role: Role): State {
    if role.Guest? || k !in s.buffers then s
    else State(s.buffers - {k}, Stilled(s.timers, s.buffers[k].timer), s.stopped)
  }

  ghost predicate TimesOneOf(buffers: map<Key, Buffer>, keys: set<Key>, i: nat) {
    exists k :: k in keys && k in buffers && buffers[k].timer == Some(i)
  }

  /** The timers of these conversations' buffers are stopped where that is still possible. */
  ghost predicate Silenced(timers: seq<Timer>, buffers: map<Key, Buffer>, keys: set<Key>, timers': seq<Timer>) {
    && |timers'| == |timers|
    && forall i :: 0 <= i < |timers| ==>
         timers'[i] == if TimesOneOf(buffers, keys, i) && timers[i].phase.Armed? then timers[i].(phase := Spent)
                       else timers[i]
  }

  ghost function AllStilled(timers: seq<Timer>, buffers: map<Key, Buffer>): (r: seq<Timer>)
    ensures |r| == |timers|
  {
    seq(|timers|, i requires 0 <= i < |timers| =>
      if TimesOneOf(buffers, buffers.Keys, i) && timers[i].phase.Armed? then timers[i].(phase := Spent) else timers[i])
  }

  /** Every buffer is dropped and the timers of live buffers are stopped where that is still possible. */
  ghost function Halted(s: State): State {
    State(map[], AllStilled(s.timers, s.buffers), true)
  }

  lemma SilencedIs(timers': seq<Timer>, buffers: map<Key, Buffer>, timers: seq<Timer>)
    requires Silenced(timers, buffers, buffers.Keys, timers')
    ensures timers' == AllStilled(timers, buffers)
  {
  }

  lemma SilenceOne(timers: seq<Timer>, buffers: map<Key, Buffer>, keys: set<Key>, timers': seq<Timer>, k: Key)
    requires Silenced(timers, buffers, keys, timers') && k in buffers
    ensures Silenced(timers, buffers, keys + {k}, Stilled(timers', buffers[k].timer))
  {
    var more := keys + {k};
    forall i | 0 <= i < |timers|
      ensures TimesOneOf(buffers, more, i) <==> TimesOneOf(buffers, keys, i) || buffers[k].timer == Some(i)
    {
      if buffers[k].timer == Some(i) {
        assert k in more;
      }
    }
  }

  lemma OneLess(m: map<Key, Buffer>, done: set<Key>, k: Key)
    ensures m - (done + {k}) == m - done - {k}
    ensures m.Keys - (done + {k}) == m.Keys - done - {k}
  {
  }

  lemma NoneLeft(m: map<Key, Buffer>)
    ensures m - m.Keys == map[]
  {
  }

  lemma NothingSilenced(timers: seq<Timer>, buffers: map<Key, Buffer>)
    ensures Silenced(timers, buffers, {}, timers)
  {
  }

  function TurnOf(k: Key, b: Buffer): Turn
    requires b.messages != []
  {
    Turn(k, b.messages, b.messages[|b.messages| - 1].postID)
  }

  // ----- the debouncer as the source runs it -----

  class Timed {
    const cfg: Config
    var buffers: map<Key, Buffer>
    var timers: seq<Timer>
    var stopped: bool

    function Now(): State
      reads this
    {
      State(buffers, timers, stopped)
    }

    constructor (cfg: Config)
      ensures this.cfg == cfg && Now() == IDLE
    {
      this.cfg := cfg;
      buffers, timers, stopped := map[], [], false;
    }

    method Push(k: Key, m: Message, now: int)
      modifies this
      ensures Now() == Pushed(cfg, old(Now()), k, m, now)
    {
      if stopped {
        return;
      }
      var buf := if k in buffers then buffers[k] else Buffer([], {}, None, now);
      if m.postID in buf.seen {
        return;
      }
      buf := buf.(seen := buf.seen + {m.postID}, messages := buf.messages + [m]);
      StopTimer(buf.timer);
      var wait := WindowClamped(buf, now);
      timers := timers + [Timer(k, now, now + wait, Armed)];
      buffers := buffers[k := buf.(timer := Some(|timers| - 1))];
    }

    method WindowClamped(buf: Buffer, now: int) returns (wait: int)
      ensures now + wait == DueAt(cfg, buf.createdAt, now)
    {
      var remaining := cfg.maxWait - (now - buf.createdAt);
      wait := cfg.window;
      if remaining < wait {
        wait := remaining;
      }
      if wait < 0 {
        wait := 0;
      }
    }

    method StopTimer(which: Option<nat>)
      modifies this`timers
      ensures timers == Stilled(old(timers), which)
    {
      if which.Some? && which.value < |timers| && timers[which.value].phase.Armed? {
        timers := timers[which.value := timers[which.value].(phase := Spent)];
      }
    }

    method CancelIfHostReplied(k: Key, role: Role)
      modifies this
      ensures Now() == Cancelled(old(Now()), k, role)
    {
      if role.Guest? {
        return;
      }
      if k !in buffers {
        return;
      }
      StopTimer(buffers[k].timer);
      buffers := buffers - {k};
    }

    method Stop()
      modifies this
      ensures Now() == Halted(old(Now()))
    {
      hide Stilled, Silenced, AllStilled;
      stopped := true;
      var keys := buffers.Keys;
      ghost var all, done: set<Key> := buffers, {};
      NothingSilenced(timers, buffers);
      while keys != {}
        invariant stopped && keys == all.Keys - done && done <= all.Keys && buffers == all - done
        invariant Silenced(old(timers), all, done, timers)
        decreases keys
      {
        var k :| k in keys;
        SilenceOne(old(timers), all, done, timers, k);
        StopTimer(buffers[k].timer);
        OneLess(all, done, k);
        buffers := buffers - {k};
        keys := keys - {k};
        done := done + {k};
      }
      assert done == all.Keys;
      NoneLeft(all);
      SilencedIs(timers, all, old(timers));
    }

    /** The locked part of fire: the buffer leaves the map and becomes a turn. */
    method Fire(k: Key) returns (turn: Option<Turn>)
      requires k in buffers ==> buffers[k].messages != []
      modifies this
      ensures turn == if k in old(buffers) then Some(TurnOf(k, old(buffers)[k])) else None
      ensures Now() == old(Now()).(buffers := old(buffers) - {k})
    {
      if k !in buffers {
        return None;
      }
      var buf := buffers[k];
      buffers := buffers - {k};
      var msgs := buf.messages;
      return Some(Turn(k, msgs, msgs[|msgs| - 1].postID));
    }
  }

  // ----- the debouncer over time -----

  /** The clock and the debouncer; and as history, when each conversation last had a push accepted
      and when the first message of its present buffer came in. */
  datatype Timeline = Timeline(now: int, deb: State, lastPush: map<Key, int>, since: map<Key, int>)

  function Boot(start: int): Timeline {
    Timeline(start, IDLE, map[], map[])
  }

  datatype Step =
    | GuestIn(key: Key, message: Message)
    | HostIn(key: Key, role: Role)
    | Halt
    | Expire(timer: nat)
    | Fire(timer: nat)
    | Tick(to: int)

  predicate Can(t: Timeline, step: Step) {
    var timers := t.deb.timers;
    match step
    case Expire(i) => i < |timers| && timers[i].phase.Armed? && timers[i].due <= t.now
    case Fire(i) => i < |timers| && timers[i].phase.Expired?
    case Tick(to) => t.now <= to
    case _ => true
  }

  /** Time passes no pending timer whose goroutine has not run. */
  ghost predicate Punctual(t: Timeline, step: Step) {
    step.Tick? ==> forall i :: 0 <= i < |t.deb.timers| && !t.deb.timers[i].phase.Spent? ==> step.to <= t.deb.timers[i].due
  }

  function Marked(timers: seq<Timer>, i: nat, phase: Phase): seq<Timer>
    requires i < |timers|
  {
    timers[i := timers[i].(phase := phase)]
  }

  ghost function Next(cfg: Config, t: Timeline, step: Step): Timeline
    requires Can(t, step)
  {
    match step
    case GuestIn(k, m) =>
      Timeline(t.now, Pushed(cfg, t.deb, k, m, t.now),
               if Accepted(t.deb, k, m) then t.lastPush[k := t.now] else t.lastPush,
               if Accepted(t.deb, k, m) && k !in t.deb.buffers then t.since[k := t.now] else t.since)
    case HostIn(k, role) => t.(deb := Cancelled(t.deb, k, role))
    case Halt => t.(deb := Halted(t.deb))
    case Expire(i) => t.(deb := t.deb.(timers := Marked(t.deb.timers, i, Expired)))
    case Fire(i) =>
      t.(deb := t.deb.(timers := Marked(t.deb.timers, i, Spent), buffers := t.deb.buffers - {t.deb.timers[i].key}))
    case Tick(to) => t.(now := to)
  }

  ghost predicate Possible(cfg: Config, t: Timeline, steps: seq<Step>)
    decreases |steps|, 0
  {
    steps == [] || (Possible(cfg, t, steps[..|steps| - 1]) && Can(After(cfg, t, steps[..|steps| - 1]), steps[|steps| - 1]))
  }

  ghost function After(cfg: Config, t: Timeline, steps: seq<Step>): Timeline
    requires Possible(cfg, t, steps)
    decreases |steps|, 1
  {
    if steps == [] then t else Next(cfg, After(cfg, t, steps[..|steps| - 1]), steps[|steps| - 1])
  }

  /** A run on a clock that lets every due timer fire before it moves on. */
  ghost predicate PunctualRun(cfg: Config, t: Timeline, steps: seq<Step>)
    requires Possible(cfg, t, steps)
  {
    steps == [] || (PunctualRun(cfg, t, steps[..|steps| - 1]) && Punctual(After(cfg, t, steps[..|steps| - 1]), steps[|steps| - 1]))
  }

  // ----- the deadline invariant -----

  ghost function IDs(ms: seq<Message>): set<string> {
    set m | m in ms :: m.postID
  }

  ghost predicate Distinct(ms: seq<Message>) {
    forall i, j :: 0 <= i < j < |ms| ==> ms[i].postID != ms[j].postID
  }

  ghost predicate BufferSound(b: Buffer) {
    b.messages != [] && Distinct(b.messages) && b.seen == IDs(b.messages)
  }

  /** A live buffer holds distinct messages, remembers exactly their ids and has a pending timer
      armed by its last accepted push, due at the end of the quiet window or at the hard ceiling. */
  ghost predicate BufferOnTime(cfg: Config, t: Timeline, k: Key)
    requires k in t.deb.buffers
  {
    var b := t.deb.buffers[k];
    && BufferSound(b)
    && b.timer.Some? && b.timer.value < |t.deb.timers|
    && var timer := t.deb.timers[b.timer.value];
       && timer.key == k && !timer.phase.Spent?
       && k in t.lastPush && timer.armedAt == t.lastPush[k]
       && k in t.since && b.createdAt == t.since[k]
       && b.createdAt <= timer.armedAt <= t.now
       && timer.due == DueAt(cfg, b.createdAt, timer.armedAt)
       && timer.due <= b.createdAt + Max(0, cfg.maxWait)
  }

  ghost predicate TimersOnTime(now: int, timers: seq<Timer>) {
    forall i :: 0 <= i < |timers| ==>
      && (!timers[i].phase.Spent? ==> now <= timers[i].due)
      && (timers[i].phase.Expired? ==> timers[i].due <= now)
  }

  ghost predicate OnTime(cfg: Config, t: Timeline) {
    && TimersOnTime(t.now, t.deb.timers)
    && forall k :: k in t.deb.buffers ==> BufferOnTime(cfg, t, k)
  }

  lemma IDsSnoc(ms: seq<Message>, m: Message)
    ensures IDs(ms + [m]) == IDs(ms) + {m.postID}
    ensures Distinct(ms) && m.postID !in IDs(ms) ==> Distinct(ms + [m])
  {
    var more := ms + [m];
    assert m in more;
    assert forall x :: x in more <==> x in ms || x == m;
  }

  /** A buffer created at this instant and last pushed to now is due by its ceiling. */
  lemma DueIsBounded(cfg: Config, createdAt: int, now: int)
    requires createdAt <= now <= createdAt + Max(0, cfg.maxWait)
    ensures now <= DueAt(cfg, createdAt, now) <= createdAt + Max(0, cfg.maxWait)
  {
  }

  lemma PushKeepsOnTime(cfg: Config, t: Timeline, k: Key, m: Message)
    requires OnTime(cfg, t)
    ensures OnTime(cfg, Next(cfg, t, GuestIn(k, m)))
  {
    hide IDs, Distinct, DueAt;
    var t' := Next(cfg, t, GuestIn(k, m));
    if Accepted(t.deb, k, m) {
      var b := BufferFor(t.deb, k, t.now);
      IDsSnoc(b.messages, m);
      if k !in t.deb.buffers {
        NoIDs();
      }
      DueIsBounded(cfg, b.createdAt, t.now);
      forall k' | k' in t'.deb.buffers ensures BufferOnTime(cfg, t', k') {
        if k' != k {
          assert BufferOnTime(cfg, t, k');
        }
      }
    }
  }

  lemma NoIDs()
    ensures IDs([]) == {} && Distinct([])
  {
  }

  lemma CancelKeepsOnTime(cfg: Config, t: Timeline, k: Key, role: Role)
    requires OnTime(cfg, t)
    ensures OnTime(cfg, Next(cfg, t, HostIn(k, role)))
  {
    hide IDs, Distinct, DueAt, Max;
    var t' := Next(cfg, t, HostIn(k, role));
    if !role.Guest? && k in t.deb.buffers {
      assert BufferOnTime(cfg, t, k);
      forall k' | k' in t'.deb.buffers ensures BufferOnTime(cfg, t', k') {
        assert BufferOnTime(cfg, t, k');
      }
    }
  }

  lemma FireKeepsOnTime(cfg: Config, t: Timeline, i: nat)
    requires OnTime(cfg, t) && Can(t, Fire(i))
    ensures OnTime(cfg, Next(cfg, t, Fire(i)))
  {
    hide IDs, Distinct, DueAt, Max;
    var t' := Next(cfg, t, Fire(i));
    forall k | k in t'.deb.buffers ensures BufferOnTime(cfg, t', k) {
      assert BufferOnTime(cfg, t, k);
    }
  }

  lemma ExpireKeepsOnTime(cfg: Config, t: Timeline, i: nat)
    requires OnTime(cfg, t) && Can(t, Expire(i))
    ensures OnTime(cfg, Next(cfg, t, Expire(i)))
  {
    hide IDs, Distinct, DueAt, Max;
    var t' := Next(cfg, t, Expire(i));
    forall k | k in t'.deb.buffers ensures BufferOnTime(cfg, t', k) {
      assert BufferOnTime(cfg, t, k);
    }
  }

  lemma TickKeepsOnTime(cfg: Config, t: Timeline, to: int)
    requires OnTime(cfg, t) && Can(t, Tick(to)) && Punctual(t, Tick(to))
    ensures OnTime(cfg, Next(cfg, t, Tick(to)))
  {
    hide IDs, Distinct, DueAt, Max;
    var t' := Next(cfg, t, Tick(to));
    forall k | k in t'.deb.buffers ensures BufferOnTime(cfg, t', k) {
      assert BufferOnTime(cfg, t, k);
    }
  }

  lemma StepKeepsOnTime(cfg: Config, t: Timeline, step: Step)
    requires OnTime(cfg, t) && Can(t, step) && Punctual(t, step)
    ensures OnTime(cfg, Next(cfg, t, step))
  {
    match step {
      case GuestIn(k, m) => PushKeepsOnTime(cfg, t, k, m);
      case HostIn(k, role) => CancelKeepsOnTime(cfg, t, k, role);
      case Halt =>
      case Expire(i) => ExpireKeepsOnTime(cfg, t, i);
      case Fire(i) => FireKeepsOnTime(cfg, t, i);
      case Tick(to) => TickKeepsOnTime(cfg, t, to);
    }
  }

  /** After any punctual run, whatever stale timers are around and whatever the configuration,
      every live buffer is non-empty, free of repeats, and has a pending timer due at the end of
      its quiet window or at its ceiling, which the clock has not passed. */
  lemma {:induction false} EveryBufferMeetsItsDeadline(cfg: Config, steps: seq<Step>, start: int)
    requires Possible(cfg, Boot(start), steps)
    requires PunctualRun(cfg, Boot(start), steps)
    ensures OnTime(cfg, After(cfg, Boot(start), steps))
  {
    var t := Boot(start);
    if steps != [] {
      hide OnTime, Next, Can, Punctual;
      EveryBufferMeetsItsDeadline(cfg, steps[..|steps| - 1], start);
      StepKeepsOnTime(cfg, After(cfg, t, steps[..|steps| - 1]), steps[|steps| - 1]);
    }
  }

  /** No other timer of this conversation is still out there. */
  ghost predicate NoStale(s: State, k: Key)
    requires k in s.buffers
  {
    forall i :: 0 <= i < |s.timers| && s.timers[i].key == k && !s.timers[i].phase.Spent? ==> s.buffers[k].timer == Some(i)
  }

  /** The instant a buffer is promised for: window after the last push, cut at the ceiling. */
  function Promised(cfg: Config, createdAt: int, lastPush: int): int {
    Min(lastPush + cfg.window, createdAt + cfg.maxWait)
  }

  /** A flush happens at the very instant its own timer was due, and never after the buffer is due,
      by whichever timer, hence at most maxWait after the buffer's first message. It is on time if
      and only if the firing timer is due with the buffer; the buffer's own timer always is, and so
      is any when no stale one is around. For a sensible configuration the due instant is the
      promised one. */
  lemma FlushIsNeverLate(cfg: Config, t: Timeline, i: nat)
    requires OnTime(cfg, t) && Can(t, Fire(i)) && t.deb.timers[i].key in t.deb.buffers
    ensures
      var k := t.deb.timers[i].key;
      && k in t.lastPush && k in t.since
      && t.now == t.deb.timers[i].due
      && var due := DueAt(cfg, t.since[k], t.lastPush[k]);
         && t.now <= due <= t.since[k] + Max(0, cfg.maxWait)
         && (t.now == due <==> t.deb.timers[i].due == due)
         && (t.deb.buffers[k].timer == Some(i) || NoStale(t.deb, k) ==> t.now == due)
         && (cfg.window >= 0 && cfg.maxWait >= 0 ==> due == Promised(cfg, t.since[k], t.lastPush[k]))
  {
    var k := t.deb.timers[i].key;
    assert BufferOnTime(cfg, t, k);
    hide IDs, Distinct;
  }

  /** A timer stopped too late does flush a newer message before its quiet window ends. */
  lemma StaleTimerCanFlushEarly(k: Key, a: Message, b: Message)
    requires a.postID != b.postID
    ensures
      var cfg, t0 := Config(10, 60), Boot(0);
      exists t :: Reachable(cfg, t0, t) && Can(t, Fire(0)) && k in t.deb.buffers && t.deb.timers[0].key == k
        && t.deb.buffers[k].messages == [a, b]
        && k in t.lastPush && k in t.since && t.now < Promised(cfg, t.since[k], t.lastPush[k])
  {
    var cfg, t0 := Config(10, 60), Boot(0);
    Begin(cfg, t0);
    hide Reachable;
    var t1 := Take(cfg, t0, t0, GuestIn(k, a));
    var t2 := Take(cfg, t0, t1, Tick(10));
    var t3 := Take(cfg, t0, t2, Expire(0));
    var t4 := Take(cfg, t0, t3, GuestIn(k, b));
  }

  ghost predicate Reachable(cfg: Config, t0: Timeline, t: Timeline) {
    exists steps :: Possible(cfg, t0, steps) && PunctualRun(cfg, t0, steps) && After(cfg, t0, steps) == t
  }

  lemma OneMore(cfg: Config, t0: Timeline, steps: seq<Step>, step: Step)
    requires Possible(cfg, t0, steps) && Can(After(cfg, t0, steps), step)
    requires PunctualRun(cfg, t0, steps) && Punctual(After(cfg, t0, steps), step)
    ensures Possible(cfg, t0, steps + [step]) && PunctualRun(cfg, t0, steps + [step])
    ensures After(cfg, t0, steps + [step]) == Next(cfg, After(cfg, t0, steps), step)
  {
    hide Can, Next, Punctual;
    assert (steps + [step])[..|steps|] == steps;
  }

  lemma Begin(cfg: Config, t0: Timeline)
    ensures Reachable(cfg, t0, t0)
  {
    assert Possible(cfg, t0, []) && PunctualRun(cfg, t0, []) && After(cfg, t0, []) == t0;
  }

  lemma Take(cfg: Config, t0: Timeline, t: Timeline, step: Step) returns (t': Timeline)
    requires Reachable(cfg, t0, t) && Can(t, step) && Punctual(t, step)
    ensures t' == Next(cfg, t, step) && Reachable(cfg, t0, t')
  {
    hide Can, Next, Punctual;
    var steps :| Possible(cfg, t0, steps) && PunctualRun(cfg, t0, steps) && After(cfg, t0, steps) == t;
    t' := Next(cfg, t, step);
    OneMore(cfg, t0, steps, step);
  }

  // ----- timers that are stopped in time -----

  /** A push that is accepted calls the buffer's old timer off, unless it has expired already. */
  lemma PushRetiresTimer(cfg: Config, t: Timeline, k: Key, m: Message, i: nat)
    requires k in t.deb.buffers && t.deb.buffers[k].timer == Some(i) && i < |t.deb.timers|
    requires !t.deb.stopped && m.postID !in t.deb.buffers[k].seen
    ensures
      var timers := Next(cfg, t, GuestIn(k, m)).deb.timers;
      && i < |timers| && !timers[i].phase.Armed? && (t.deb.timers[i].phase.Expired? ==> timers[i].phase.Expired?)
  {
  }

  /** No timer is overtaken: whenever one expires, its goroutine runs next. */
  predicate PromptRun(steps: seq<Step>) {
    forall n :: 0 <= n < |steps| - 1 && steps[n].Expire? ==> steps[n + 1] == Fire(steps[n].timer)
  }

  /** The timer that has just expired, if the last step was that. */
  function Pending(steps: seq<Step>): Option<nat> {
    if steps != [] && steps[|steps| - 1].Expire? then Some(steps[|steps| - 1].timer) else None
  }

  /** Every timer still out there is its live buffer's own, and waits unless it is the pending one. */
  ghost predicate OwnTimersOnly(s: State, pending: Option<nat>) {
    forall i :: 0 <= i < |s.timers| && !s.timers[i].phase.Spent? ==>
      && s.timers[i].key in s.buffers && s.buffers[s.timers[i].key].timer == Some(i)
      && (s.timers[i].phase.Expired? ==> pending == Some(i))
  }

  lemma StepKeepsOwnTimers(cfg: Config, t: Timeline, step: Step, pending: Option<nat>)
    requires OwnTimersOnly(t.deb, pending) && Can(t, step)
    requires forall k :: k in t.deb.buffers ==> t.deb.buffers[k].timer.Some? && t.deb.buffers[k].timer.value < |t.deb.timers|
    requires pending.Some? ==> step == Fire(pending.value)
    ensures OwnTimersOnly(Next(cfg, t, step).deb, if step.Expire? then Some(step.timer) else None)
  {
    hide DueAt;
    if step.Halt? {
      HaltRetiresTimers(cfg, t);
    }
  }

  lemma HaltRetiresTimers(cfg: Config, t: Timeline)
    requires OwnTimersOnly(t.deb, None)
    ensures OwnTimersOnly(Halted(t.deb), None)
  {
    var timers := t.deb.timers;
    forall i | 0 <= i < |timers| ensures Halted(t.deb).timers[i].phase.Spent? {
      if !timers[i].phase.Spent? {
        assert timers[i].key in t.deb.buffers.Keys;
        assert TimesOneOf(t.deb.buffers, t.deb.buffers.Keys, i);
      }
    }
  }

  lemma StepKeepsTimersNamed(cfg: Config, t: Timeline, step: Step)
    requires Can(t, step)
    requires forall k :: k in t.deb.buffers ==> t.deb.buffers[k].timer.Some? && t.deb.buffers[k].timer.value < |t.deb.timers|
    ensures
      var s := Next(cfg, t, step).deb;
      forall k :: k in s.buffers ==> s.buffers[k].timer.Some? && s.buffers[k].timer.value < |s.timers|
  {
    hide DueAt, TimesOneOf;
  }

  lemma {:induction false} PromptRunsKeepOwnTimers(cfg: Config, steps: seq<Step>, start: int)
    requires Possible(cfg, Boot(start), steps) && PromptRun(steps)
    ensures OwnTimersOnly(After(cfg, Boot(start), steps).deb, Pending(steps))
    ensures
      var s := After(cfg, Boot(start), steps).deb;
      forall k :: k in s.buffers ==> s.buffers[k].timer.Some? && s.buffers[k].timer.value < |s.timers|
  {
    if steps != [] {
      hide OwnTimersOnly, Can, Next;
      var init, last := steps[..|steps| - 1], steps[|steps| - 1];
      PromptRunsKeepOwnTimers(cfg, init, start);
      assert init != [] ==> init[|init| - 1] == steps[|steps| - 2];
      StepKeepsOwnTimers(cfg, After(cfg, Boot(start), init), last, Pending(init));
      StepKeepsTimersNamed(cfg, After(cfg, Boot(start), init), last);
    }
  }

  /** Where no timer is overtaken, every firing flushes a buffer, and exactly at the instant it was
      promised for: the quiet window after its last message, cut at the ceiling after its first. */
  lemma PromptFlushesAreExact(cfg: Config, steps: seq<Step>, start: int, i: nat)
    requires Possible(cfg, Boot(start), steps) && PunctualRun(cfg, Boot(start), steps) && PromptRun(steps)
    requires Can(After(cfg, Boot(start), steps), Fire(i)) && cfg.window >= 0 && cfg.maxWait >= 0
    ensures
      var t := After(cfg, Boot(start), steps);
      var k := t.deb.timers[i].key;
      && k in t.deb.buffers && k in t.since && k in t.lastPush
      && t.now == Promised(cfg, t.since[k], t.lastPush[k])
  {
    hide OnTime, Possible, PunctualRun, PromptRun, DueAt, Promised;
    EveryBufferMeetsItsDeadline(cfg, steps, start);
    PromptRunsKeepOwnTimers(cfg, steps, start);
    FlushIsNeverLate(cfg, After(cfg, Boot(start), steps), i);
  }

  // ----- order: what went in, what came out -----

  function Held(s: State, k: Key): seq<Message> {
    if k in s.buffers then s.buffers[k].messages else []
  }

  /** The message of conversation k this step gets accepted, if any. */
  ghost function Entering(t: Timeline, step: Step, k: Key): seq<Message> {
    if step.GuestIn? && step.key == k && Accepted(t.deb, k, step.message) then [step.message] else []
  }

  /** The segment this step takes out of conversation k's buffer, by a flush, a host reply or the
      stop, if any. */
  ghost function Leaving(cfg: Config, t: Timeline, step: Step, k: Key): seq<seq<Message>>
    requires Can(t, step)
  {
    if k in t.deb.buffers && k !in Next(cfg, t, step).deb.buffers then [t.deb.buffers[k].messages] else []
  }

  ghost function PushesOf(cfg: Config, t: Timeline, steps: seq<Step>, k: Key): seq<Message>
    requires Possible(cfg, t, steps)
  {
    if steps == [] then []
    else PushesOf(cfg, t, steps[..|steps| - 1], k) + Entering(After(cfg, t, steps[..|steps| - 1]), steps[|steps| - 1], k)
  }

  ghost function SegmentsOf(cfg: Config, t: Timeline, steps: seq<Step>, k: Key): seq<seq<Message>>
    requires Possible(cfg, t, steps)
  {
    if steps == [] then []
    else SegmentsOf(cfg, t, steps[..|steps| - 1], k)
         + Leaving(cfg, After(cfg, t, steps[..|steps| - 1]), steps[|steps| - 1], k)
  }

  function Joined(segments: seq<seq<Message>>): seq<Message> {
    if segments == [] then [] else Joined(segments[..|segments| - 1]) + segments[|segments| - 1]
  }

  lemma JoinedSnoc(segments: seq<seq<Message>>, g: seq<Message>)
    ensures Joined(segments + [g]) == Joined(segments) + g
  {
    assert (segments + [g])[..|segments|] == segments;
  }

  /** One step either pushes at the end of the buffer, or takes all of it, or leaves it; and only a
      host message, a timer of this very conversation or the stop takes it. */
  lemma StepOnBuffer(cfg: Config, t: Timeline, step: Step, k: Key)
    requires Can(t, step)
    ensures
      var before, after := Held(t.deb, k), Held(Next(cfg, t, step).deb, k);
      || (Leaving(cfg, t, step, k) == [] && after == before + Entering(t, step, k))
      || (Leaving(cfg, t, step, k) == [before] && after == [] == Entering(t, step, k)
          && (step.Halt? || (step.HostIn? && step.key == k && !step.role.Guest?)
              || (step.Fire? && t.deb.timers[step.timer].key == k)))
  {
    hide Stilled, AllStilled, DueAt;
  }

  lemma StepKeepsOrder(cfg: Config, t: Timeline, step: Step, k: Key, segments: seq<seq<Message>>, pushes: seq<Message>)
    requires Can(t, step) && Joined(segments) + Held(t.deb, k) == pushes
    ensures Joined(segments + Leaving(cfg, t, step, k)) + Held(Next(cfg, t, step).deb, k)
            == pushes + Entering(t, step, k)
  {
    hide Can, Next;
    StepOnBuffer(cfg, t, step, k);
    hide Leaving, Entering, Held;
    var before := Held(t.deb, k);
    JoinedSnoc(segments, before);
    assert segments + [] == segments;
    assert (Joined(segments) + before) + Entering(t, step, k) == Joined(segments) + (before + Entering(t, step, k));
  }

  /** A live buffer is never empty, holds distinct ids and remembers exactly those; none is left
      after the stop. */
  ghost predicate BuffersSound(s: State) {
    && (forall k :: k in s.buffers ==> BufferSound(s.buffers[k]))
    && (s.stopped ==> s.buffers == map[])
  }

  lemma PushKeepsBuffers(cfg: Config, s: State, k: Key, m: Message, now: int)
    requires BuffersSound(s)
    ensures BuffersSound(Pushed(cfg, s, k, m, now))
  {
    var b := BufferFor(s, k, now);
    IDsSnoc(b.messages, m);
    NoIDs();
    hide IDs, Distinct, Stilled, DueAt;
  }

  lemma StepKeepsBuffers(cfg: Config, t: Timeline, step: Step)
    requires BuffersSound(t.deb) && Can(t, step)
    ensures BuffersSound(Next(cfg, t, step).deb)
  {
    hide BufferSound, Stilled, AllStilled, DueAt;
    if step.GuestIn? {
      PushKeepsBuffers(cfg, t.deb, step.key, step.message, t.now);
      hide Pushed;
    }
  }

  lemma {:induction false} RunKeepsBuffers(cfg: Config, steps: seq<Step>, start: int)
    requires Possible(cfg, Boot(start), steps)
    ensures BuffersSound(After(cfg, Boot(start), steps).deb)
  {
    if steps != [] {
      hide BuffersSound, Can, Next;
      RunKeepsBuffers(cfg, steps[..|steps| - 1], start);
      StepKeepsBuffers(cfg, After(cfg, Boot(start), steps[..|steps| - 1]), steps[|steps| - 1]);
    }
  }

  /** Nothing is lost, repeated or reordered on the way: the segments taken out so far, in the
      order they were taken, followed by the live buffer, are exactly the accepted pushes; and
      every segment is a non-empty run of messages with distinct ids. */
  lemma {:induction false} OrderIsKept(cfg: Config, steps: seq<Step>, start: int, k: Key)
    requires Possible(cfg, Boot(start), steps)
    ensures
      var t0 := Boot(start);
      Joined(SegmentsOf(cfg, t0, steps, k)) + Held(After(cfg, t0, steps).deb, k) == PushesOf(cfg, t0, steps, k)
    ensures
      var segments := SegmentsOf(cfg, Boot(start), steps, k);
      forall g :: g in segments ==> g != [] && Distinct(g)
  {
    var t0 := Boot(start);
    hide Next, Can, Distinct, Entering, IDs, Stilled, AllStilled, DueAt;
    if steps == [] {
    } else {
      var init, last := steps[..|steps| - 1], steps[|steps| - 1];
      OrderIsKept(cfg, init, start, k);
      RunKeepsBuffers(cfg, init, start);
      var t := After(cfg, t0, init);
      StepKeepsOrder(cfg, t, last, k, SegmentsOf(cfg, t0, init, k), PushesOf(cfg, t0, init, k));
      hide Held, Joined;
    }
  }

  /** The turn a flush makes of a buffer ends with the last push that conversation got accepted. */
  lemma FlushedTurnEndsWithLastPush(cfg: Config, steps: seq<Step>, start: int, k: Key)
    requires Possible(cfg, Boot(start), steps) && k in After(cfg, Boot(start), steps).deb.buffers
    ensures
      var b, pushes := After(cfg, Boot(start), steps).deb.buffers[k], PushesOf(cfg, Boot(start), steps, k);
      && b.messages != [] && pushes != []
      && TurnOf(k, b).key == k && TurnOf(k, b).lastPostID == pushes[|pushes| - 1].postID
      && |TurnOf(k, b).messages| <= |pushes|
      && TurnOf(k, b).messages == pushes[|pushes| - |TurnOf(k, b).messages|..]
  {
    RunKeepsBuffers(cfg, steps, start);
    OrderIsKept(cfg, steps, start, k);
    hide Possible, After, PushesOf, SegmentsOf, Joined, IDs, Distinct;
  }
}
