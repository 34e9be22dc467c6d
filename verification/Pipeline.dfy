/** The delivery protocol end to end: webhook handlers, debounce buffers with their timers, flush
    goroutines, the bounded queue and its workers, host replies and the shutdown, in any
    interleaving (internal/transport/http/handler.go, internal/infrastructure/debouncer/timed.go,
    internal/application/dispatch/pool.go, cmd/server/main.go). */
module Pipeline {
  import opened Domain
  import opened Sums
  import Debouncer
  import Normalize
  import Pool
  import Stores

  /** Why messages left without reaching the pool. Duplicate is what a push refused by a running
      debouncer would be; no run ever gets there. */
  datatype Cause = HostReplied | Halted | AfterStop | Duplicate

  datatype Discard = Discard(turn: Turn, cause: Cause)

  /** handlers are webhook requests that have claimed their message and not yet pushed it. accepted,
      discarded and answers are history; answers[i] is what the outside answered while the i-th
      finished turn was handled, of a type A that no step looks into. */
  datatype State<A> = State(
    now: int,
    claims: set<string>,
    accepted: set<(Key, string)>,
    handlers: seq<Turn>,
    deb: Debouncer.State,
    pool: Pool.State,
    answers: seq<A>,
    discarded: seq<Discard>)

  datatype Config = Config(debounce: Debouncer.Config, workers: nat, capacity: nat)

  datatype Step<A> =
    | Claim(key: Key, message: Message)
    | Push(handler: nat)
    | HostReply(key: Key, role: Role)
    | Halt(order: seq<Key>)
    | Tick(to: int)
    | Expire(timer: nat)
    | Fire(timer: nat)
    | PoolMove(move: Pool.Step)
    | Handle(worker: nat, answer: A)

  function Started<A>(cfg: Config, now: int): State<A> {
    State(now, {}, {}, [], Debouncer.IDLE, Pool.Started(cfg.workers), [], [])
  }

  function Lone(k: Key, m: Message): Turn {
    Turn(k, [m], m.postID)
  }

  predicate TimerIs<A>(s: State<A>, i: nat, phase: Debouncer.Phase) {
    i < |s.deb.timers| && s.deb.timers[i].phase == phase
  }

  ghost predicate Lists(order: seq<Key>, keys: set<Key>) {
    && (forall k :: k in order <==> k in keys)
    && (forall a, b :: 0 <= a < b < |order| ==> order[a] != order[b])
  }

  /** Only guest messages with a body are claimed, and the shutdown stops the debouncer before it
      closes the pool. That a buffer or handler is never empty is an invariant, proved below. */
  ghost predicate Can<A>(s: State<A>, step: Step<A>) {
    match step
    case Push(h) => h < |s.handlers| && s.handlers[h].messages != []
    case HostReply(k, role) => !role.Guest? && (k in s.deb.buffers ==> s.deb.buffers[k].messages != [])
    case Halt(order) => Lists(order, s.deb.buffers.Keys) && forall k :: k in order ==> s.deb.buffers[k].messages != []
    case Tick(to) => s.now <= to
    case Expire(i) => TimerIs(s, i, Debouncer.Armed) && s.deb.timers[i].due <= s.now
    case Fire(i) => TimerIs(s, i, Debouncer.Expired)
                    && (s.deb.timers[i].key in s.deb.buffers ==> s.deb.buffers[s.deb.timers[i].key].messages != [])
    case PoolMove(move) => !move.Arrive? && !move.Finish? && Pool.Can(s.pool, move) && (move.Close? ==> s.deb.stopped)
    case Handle(w, _) => Pool.Can(s.pool, Pool.Finish(w))
    case Claim(_, m) => m.role.Guest? && !Normalize.Blank(m.body)
  }

  /** The whole buffers of these conversations, as they are dropped at the stop. */
  function Dropped(buffers: map<Key, Debouncer.Buffer>, order: seq<Key>): seq<Discard>
    requires forall k :: k in order ==> k in buffers && buffers[k].messages != []
  {
    if order == [] then []
    else
      var k := order[|order| - 1];
      Dropped(buffers, order[..|order| - 1]) + [Discard(Debouncer.TurnOf(k, buffers[k]), Halted)]
  }

  function Claiming<A>(s: State<A>, k: Key, m: Message): State<A> {
    var claim := Stores.ClaimKey(k, m.postID);
    if claim in s.claims then s
    else s.(claims := s.claims + {claim}, accepted := s.accepted + {(k, m.postID)}, handlers := s.handlers + [Lone(k, m)])
  }

  function Pushing<A>(cfg: Config, s: State<A>, h: nat): State<A>
    requires h < |s.handlers| && s.handlers[h].messages != []
  {
    var t := s.handlers[h];
    var rest := s.handlers[..h] + s.handlers[h + 1..];
    if Debouncer.Accepted(s.deb, t.key, t.messages[0]) then
      s.(handlers := rest, deb := Debouncer.Pushed(cfg.debounce, s.deb, t.key, t.messages[0], s.now))
    else
      s.(handlers := rest, discarded := s.discarded + [Discard(t, if s.deb.stopped then AfterStop else Duplicate)])
  }

  function Cancelling<A>(s: State<A>, k: Key, role: Role): State<A>
    requires !role.Guest? && (k in s.deb.buffers ==> s.deb.buffers[k].messages != [])
  {
    if k !in s.deb.buffers then s
    else s.(deb := Debouncer.Cancelled(s.deb, k, role),
            discarded := s.discarded + [Discard(Debouncer.TurnOf(k, s.deb.buffers[k]), HostReplied)])
  }

  ghost function Firing<A>(cfg: Config, s: State<A>, i: nat): State<A>
    requires Can(s, Fire(i))
  {
    var k := s.deb.timers[i].key;
    var deb := s.deb.(timers := Debouncer.Marked(s.deb.timers, i, Debouncer.Spent));
    if k !in s.deb.buffers then s.(deb := deb)
    else s.(deb := deb.(buffers := deb.buffers - {k}),
            pool := Pool.Next(cfg.capacity, s.pool, Pool.Arrive(Debouncer.TurnOf(k, s.deb.buffers[k]))))
  }

  ghost function Next<A>(cfg: Config, s: State<A>, step: Step<A>): State<A>
    requires Can(s, step)
  {
    match step
    case Claim(k, m) => Claiming(s, k, m)
    case Push(h) => Pushing(cfg, s, h)
    case HostReply(k, role) => Cancelling(s, k, role)
    case Halt(order) => s.(deb := Debouncer.Halted(s.deb), discarded := s.discarded + Dropped(s.deb.buffers, order))
    case Tick(to) => s.(now := to)
    case Expire(i) => s.(deb := s.deb.(timers := Debouncer.Marked(s.deb.timers, i, Debouncer.Expired)))
    case Fire(i) => Firing(cfg, s, i)
    case PoolMove(move) => s.(pool := Pool.Next(cfg.capacity, s.pool, move))
    case Handle(w, answer) => s.(pool := Pool.Next(cfg.capacity, s.pool, Pool.Finish(w)), answers := s.answers + [answer])
  }

  // ----- how often a message is somewhere -----

  function HasID(id: string): Message -> nat {
    (m: Message) => if m.postID == id then 1 else 0
  }

  function Load(k: Key, id: string): Turn -> nat {
    (t: Turn) => if t.key == k then Sum(t.messages, HasID(id)) else 0
  }

  function SenderLoad(k: Key, id: string): Pool.Sender -> nat {
    (x: Pool.Sender) => Load(k, id)(x.turn)
  }

  function DiscardLoad(k: Key, id: string): Discard -> nat {
    (x: Discard) => Load(k, id)(x.turn)
  }

  function LiveLoad(deb: Debouncer.State, k: Key, id: string): nat {
    Sum(Debouncer.Held(deb, k), HasID(id))
  }

  /** Occurrences of message id of conversation k: with a handler, in the live buffer, in a turn
      handed to the pool, or among the discarded. */
  function Occurrences<A>(s: State<A>, k: Key, id: string): nat {
    Sum(s.handlers, Load(k, id)) + LiveLoad(s.deb, k, id)
    + Sum(s.pool.senders, SenderLoad(k, id)) + Sum(s.discarded, DiscardLoad(k, id))
  }

  lemma LoneLoad(k: Key, m: Message, k': Key, id: string)
    ensures Load(k', id)(Lone(k, m)) == if k == k' && m.postID == id then 1 else 0
  {
    One(m, HasID(id));
  }

  lemma BufferLoad(deb: Debouncer.State, k: Key, k': Key, id: string)
    requires k in deb.buffers && deb.buffers[k].messages != []
    ensures Load(k', id)(Debouncer.TurnOf(k, deb.buffers[k])) == if k == k' then LiveLoad(deb, k', id) else 0
  {
  }

  lemma ClaimMoves<A>(s: State<A>, k: Key, m: Message, k': Key, id: string)
    ensures Occurrences(Claiming(s, k, m), k', id)
            == Occurrences(s, k', id)
               + if Stores.ClaimKey(k, m.postID) !in s.claims && k == k' && m.postID == id then 1 else 0
  {
    Snoc(s.handlers, Lone(k, m), Load(k', id));
    LoneLoad(k, m, k', id);
    hide Sum, Load, LiveLoad, SenderLoad, DiscardLoad, Stores.ClaimKey;
  }

  lemma HeldAfterPush(cfg: Debouncer.Config, deb: Debouncer.State, k: Key, m: Message, now: int, k': Key)
    requires Debouncer.Accepted(deb, k, m)
    ensures Debouncer.Held(Debouncer.Pushed(cfg, deb, k, m, now), k')
            == if k == k' then Debouncer.Held(deb, k) + [m] else Debouncer.Held(deb, k')
  {
    hide Debouncer.Stilled, Debouncer.DueAt;
  }

  lemma PushMoves<A>(cfg: Config, s: State<A>, h: nat, k: Key, id: string)
    requires Can(s, Push(h)) && |s.handlers[h].messages| == 1
    ensures Occurrences(Pushing(cfg, s, h), k, id) == Occurrences(s, k, id)
  {
    var t := s.handlers[h];
    Remove(s.handlers, h, Load(k, id));
    if Debouncer.Accepted(s.deb, t.key, t.messages[0]) {
      HeldAfterPush(cfg.debounce, s.deb, t.key, t.messages[0], s.now, k);
      Snoc(Debouncer.Held(s.deb, t.key), t.messages[0], HasID(id));
      One(t.messages[0], HasID(id));
      assert t.messages == [t.messages[0]];
    } else {
      Snoc(s.discarded, Discard(t, if s.deb.stopped then AfterStop else Duplicate), DiscardLoad(k, id));
    }
    hide Sum, Debouncer.Pushed, Debouncer.Accepted, Debouncer.Held;
  }

  lemma CancelMoves<A>(s: State<A>, k: Key, role: Role, k': Key, id: string)
    requires Can(s, HostReply(k, role))
    ensures Occurrences(Cancelling(s, k, role), k', id) == Occurrences(s, k', id)
  {
    hide Sum, Load, SenderLoad, Debouncer.TurnOf, Debouncer.Held, Debouncer.Stilled;
    if k in s.deb.buffers {
      Snoc(s.discarded, Discard(Debouncer.TurnOf(k, s.deb.buffers[k]), HostReplied), DiscardLoad(k', id));
      BufferLoad(s.deb, k, k', id);
      NoLoad(id);
      HeldWithout(s.deb, Cancelling(s, k, role).deb, k, k');
      hide Debouncer.Cancelled;
    }
  }

  lemma NoLoad(id: string)
    ensures Sum([], HasID(id)) == 0
  {
  }

  lemma HeldWithout(deb: Debouncer.State, deb': Debouncer.State, k: Key, k': Key)
    requires deb'.buffers == deb.buffers - {k}
    ensures Debouncer.Held(deb', k') == if k == k' then [] else Debouncer.Held(deb, k')
  {
  }

  lemma FireMoves<A>(cfg: Config, s: State<A>, i: nat, k': Key, id: string)
    requires Can(s, Fire(i))
    ensures Occurrences(Firing(cfg, s, i), k', id) == Occurrences(s, k', id)
  {
    var k := s.deb.timers[i].key;
    if k in s.deb.buffers {
      var t := Debouncer.TurnOf(k, s.deb.buffers[k]);
      Snoc(s.pool.senders, Pool.Sender(t, Pool.Detached), SenderLoad(k', id));
      BufferLoad(s.deb, k, k', id);
      NoLoad(id);
      HeldWithout(s.deb, Firing(cfg, s, i).deb, k, k');
      hide Sum, Load, Debouncer.TurnOf, Debouncer.Held, Debouncer.Marked;
    }
  }

  lemma {:induction false} DroppedLoad(deb: Debouncer.State, order: seq<Key>, k: Key, id: string)
    requires forall k :: k in order ==> k in deb.buffers && deb.buffers[k].messages != []
    requires forall a, b :: 0 <= a < b < |order| ==> order[a] != order[b]
    ensures Sum(Dropped(deb.buffers, order), DiscardLoad(k, id)) == if k in order then LiveLoad(deb, k, id) else 0
  {
    if order != [] {
      var init, last := order[..|order| - 1], order[|order| - 1];
      DroppedLoad(deb, init, k, id);
      Snoc(Dropped(deb.buffers, init), Discard(Debouncer.TurnOf(last, deb.buffers[last]), Halted), DiscardLoad(k, id));
      BufferLoad(deb, last, k, id);
      hide Sum, Load, Debouncer.TurnOf, LiveLoad;
      assert order == init + [last];
    }
  }

  lemma HaltMoves<A>(cfg: Config, s: State<A>, order: seq<Key>, k: Key, id: string)
    requires Can(s, Halt(order))
    ensures Occurrences(Next(cfg, s, Halt(order)), k, id) == Occurrences(s, k, id)
  {
    DroppedLoad(s.deb, order, k, id);
    Concat(s.discarded, Dropped(s.deb.buffers, order), DiscardLoad(k, id));
    NoLoad(id);
    hide Sum, Load, Dropped, DiscardLoad, SenderLoad, Debouncer.AllStilled;
  }

  lemma PoolKeepsLoad(capacity: nat, p: Pool.State, move: Pool.Step, k: Key, id: string)
    requires Pool.Can(p, move) && !move.Arrive?
    ensures Sum(Pool.Next(capacity, p, move).senders, SenderLoad(k, id)) == Sum(p.senders, SenderLoad(k, id))
  {
    if move.Check? || move.Send? {
      var i := move.sender;
      Replace(p.senders, i, p.senders[i].(stage := Pool.Next(capacity, p, move).senders[i].stage), SenderLoad(k, id));
      hide Sum;
    }
  }

  /** Every step moves each message or leaves it; only a fresh claim brings one in. */
  lemma StepMoves<A>(cfg: Config, s: State<A>, step: Step<A>, k: Key, id: string)
    requires Can(s, step)
    requires forall h :: 0 <= h < |s.handlers| ==> |s.handlers[h].messages| == 1
    ensures Occurrences(Next(cfg, s, step), k, id)
            == Occurrences(s, k, id)
               + if step.Claim? && Stores.ClaimKey(step.key, step.message.postID) !in s.claims
                    && step.key == k && step.message.postID == id then 1 else 0
  {
    match step {
      case Claim(k', m) => ClaimMoves(s, k', m, k, id);
      case Push(h) => PushMoves(cfg, s, h, k, id);
      case HostReply(k', role) => CancelMoves(s, k', role, k, id);
      case Halt(order) => HaltMoves(cfg, s, order, k, id);
      case Tick(_) =>
      case Expire(_) =>
      case Fire(i) => FireMoves(cfg, s, i, k, id);
      case PoolMove(move) =>
        PoolKeepsLoad(cfg.capacity, s.pool, move, k, id);
        hide Sum, Pool.Next, Pool.Can;
      case Handle(w, _) =>
        PoolKeepsLoad(cfg.capacity, s.pool, Pool.Finish(w), k, id);
        hide Sum, Pool.Next, Pool.Can;
    }
  }

  // ----- the invariant of every interleaving -----

  ghost predicate Conserved<A>(s: State<A>) {
    forall k, id :: Occurrences(s, k, id) == if (k, id) in s.accepted then 1 else 0
  }

  /** The claims are exactly those of the accepted messages. */
  ghost predicate ClaimsMatch<A>(s: State<A>) {
    && (forall a :: a in s.accepted ==> Stores.ClaimKey(a.0, a.1) in s.claims)
    && (forall c :: c in s.claims ==> exists a :: a in s.accepted && Stores.ClaimKey(a.0, a.1) == c)
  }

  ghost predicate HandlersHoldOne<A>(s: State<A>) {
    forall h :: 0 <= h < |s.handlers| ==> |s.handlers[h].messages| == 1
  }

  ghost predicate NoDuplicates<A>(s: State<A>) {
    forall x :: x in s.discarded ==> !x.cause.Duplicate?
  }

  ghost predicate Sound<A>(cfg: Config, s: State<A>) {
    && Conserved(s) && ClaimsMatch(s) && HandlersHoldOne(s) && Debouncer.BuffersSound(s.deb) && NoDuplicates(s)
    && Pool.Sound(cfg.capacity, s.pool)
    && |s.answers| == |s.pool.finished|
  }

  lemma StepKeepsClaims<A>(cfg: Config, s: State<A>, step: Step<A>)
    requires ClaimsMatch(s) && Can(s, step)
    ensures ClaimsMatch(Next(cfg, s, step))
  {
    hide Stores.ClaimKey, Debouncer.Pushed, Debouncer.Accepted, Debouncer.Cancelled, Debouncer.AllStilled, Pool.Next, Pool.Can, Dropped;
    if step.Claim? {
      var s' := Next(cfg, s, step);
      forall c | c in s'.claims ensures exists a :: a in s'.accepted && Stores.ClaimKey(a.0, a.1) == c {
        if c in s.claims {
          var a :| a in s.accepted && Stores.ClaimKey(a.0, a.1) == c;
          assert a in s'.accepted;
        } else {
          var a := (step.key, step.message.postID);
          assert a in s'.accepted && Stores.ClaimKey(a.0, a.1) == c;
        }
      }
    }
  }

  lemma StepKeepsHandlers<A>(cfg: Config, s: State<A>, step: Step<A>)
    requires HandlersHoldOne(s) && Can(s, step)
    ensures HandlersHoldOne(Next(cfg, s, step))
  {
    hide Stores.ClaimKey, Debouncer.Pushed, Debouncer.Accepted, Debouncer.Cancelled, Debouncer.AllStilled, Pool.Next, Pool.Can, Dropped;
  }

  lemma StepKeepsBuffers<A>(cfg: Config, s: State<A>, step: Step<A>)
    requires Debouncer.BuffersSound(s.deb) && Can(s, step)
    ensures Debouncer.BuffersSound(Next(cfg, s, step).deb)
  {
    hide Stores.ClaimKey, Debouncer.IDs, Debouncer.AllStilled, Debouncer.Stilled, Pool.Next, Pool.Can, Dropped;
    if step.Push? {
      var t := s.handlers[step.handler];
      Debouncer.PushKeepsBuffers(cfg.debounce, s.deb, t.key, t.messages[0], s.now);
      hide Debouncer.Pushed;
    }
  }

  lemma {:induction false} IDIsCounted(ms: seq<Message>, id: string)
    requires id in Debouncer.IDs(ms)
    ensures Sum(ms, HasID(id)) > 0
  {
    var m :| m in ms && m.postID == id;
    var i :| 0 <= i < |ms| && ms[i] == m;
    AtLeast(ms, i, HasID(id));
  }

  lemma TwiceIsCounted<A>(s: State<A>, h: nat)
    requires h < |s.handlers| && |s.handlers[h].messages| == 1 && s.handlers[h].key in s.deb.buffers
    requires s.handlers[h].messages[0].postID in Debouncer.IDs(s.deb.buffers[s.handlers[h].key].messages)
    ensures Occurrences(s, s.handlers[h].key, s.handlers[h].messages[0].postID) >= 2
  {
    var t := s.handlers[h];
    var id := t.messages[0].postID;
    IDIsCounted(s.deb.buffers[t.key].messages, id);
    One(t.messages[0], HasID(id));
    assert t.messages == [t.messages[0]];
    AtLeast(s.handlers, h, Load(t.key, id));
  }

  /** A message that is claimed once cannot meet itself in the buffer: a running debouncer never
      refuses a push. */
  lemma PushIsAccepted<A>(cfg: Config, s: State<A>, h: nat)
    requires Sound(cfg, s) && Can(s, Push(h)) && !s.deb.stopped
    ensures Debouncer.Accepted(s.deb, s.handlers[h].key, s.handlers[h].messages[0])
  {
    hide Occurrences, Pool.Sound;
    if !Debouncer.Accepted(s.deb, s.handlers[h].key, s.handlers[h].messages[0]) {
      TwiceIsCounted(s, h);
    }
  }

  lemma StepKeepsNoDuplicates<A>(cfg: Config, s: State<A>, step: Step<A>)
    requires Sound(cfg, s) && Can(s, step)
    ensures NoDuplicates(Next(cfg, s, step))
  {
    hide Conserved, ClaimsMatch, Debouncer.BuffersSound, Pool.Sound, Debouncer.Pushed, Debouncer.Accepted, Debouncer.Cancelled;
    hide Debouncer.AllStilled, Pool.Next, Pool.Can, Stores.ClaimKey, Debouncer.TurnOf;
    if step.Push? && !s.deb.stopped {
      PushIsAccepted(cfg, s, step.handler);
    } else if step.Halt? {
      DroppedAreHalted(s.deb.buffers, step.order);
      hide Dropped;
    }
  }

  lemma {:induction false} DroppedAreHalted(buffers: map<Key, Debouncer.Buffer>, order: seq<Key>)
    requires forall k :: k in order ==> k in buffers && buffers[k].messages != []
    ensures forall x :: x in Dropped(buffers, order) ==> x.cause.Halted?
  {
    if order != [] {
      DroppedAreHalted(buffers, order[..|order| - 1]);
    }
  }

  lemma StepKeepsPool<A>(cfg: Config, s: State<A>, step: Step<A>)
    requires Pool.Sound(cfg.capacity, s.pool) && |s.answers| == |s.pool.finished| && Can(s, step)
    ensures Pool.Sound(cfg.capacity, Next(cfg, s, step).pool)
    ensures |Next(cfg, s, step).answers| == |Next(cfg, s, step).pool.finished|
  {
    hide Pool.Sound, Debouncer.Pushed, Debouncer.Accepted, Debouncer.Cancelled, Debouncer.AllStilled, Stores.ClaimKey, Debouncer.TurnOf, Dropped;
    match step {
      case PoolMove(move) => Pool.StepKeepsSound(cfg.capacity, s.pool, move);
      case Handle(w, _) => Pool.StepKeepsSound(cfg.capacity, s.pool, Pool.Finish(w));
      case Fire(i) =>
        var k := s.deb.timers[i].key;
        if k in s.deb.buffers {
          Pool.StepKeepsSound(cfg.capacity, s.pool, Pool.Arrive(Debouncer.TurnOf(k, s.deb.buffers[k])));
        }
      case _ =>
    }
  }

  lemma NewClaimIsNew<A>(s: State<A>, k: Key, id: string)
    requires ClaimsMatch(s) && Stores.ClaimKey(k, id) !in s.claims
    ensures (k, id) !in s.accepted
  {
    var a := (k, id);
    assert a in s.accepted ==> Stores.ClaimKey(a.0, a.1) in s.claims;
  }

  lemma StepKeepsConserved<A>(cfg: Config, s: State<A>, step: Step<A>)
    requires Conserved(s) && ClaimsMatch(s) && HandlersHoldOne(s) && Can(s, step)
    ensures Conserved(Next(cfg, s, step))
  {
    var s' := Next(cfg, s, step);
    AcceptedAfter(cfg, s, step);
    hide Next, Can;
    forall k, id ensures Occurrences(s', k, id) == if (k, id) in s'.accepted then 1 else 0 {
      StepMoves(cfg, s, step, k, id);
      if step.Claim? && Stores.ClaimKey(step.key, step.message.postID) !in s.claims {
        NewClaimIsNew(s, step.key, step.message.postID);
      }
      hide Occurrences, Stores.ClaimKey, ClaimsMatch;
    }
  }

  lemma AcceptedAfter<A>(cfg: Config, s: State<A>, step: Step<A>)
    requires Can(s, step)
    ensures Next(cfg, s, step).accepted
            == if step.Claim? && Stores.ClaimKey(step.key, step.message.postID) !in s.claims
               then s.accepted + {(step.key, step.message.postID)} else s.accepted
  {
    hide Stores.ClaimKey;
  }

  lemma StepKeepsSound<A>(cfg: Config, s: State<A>, step: Step<A>)
    requires Sound(cfg, s) && Can(s, step)
    ensures Sound(cfg, Next(cfg, s, step))
  {
    StepKeepsNoDuplicates(cfg, s, step);
    hide Next, Can, Conserved, ClaimsMatch, HandlersHoldOne, Debouncer.BuffersSound, NoDuplicates, Pool.Sound;
    StepKeepsClaims(cfg, s, step);
    StepKeepsHandlers(cfg, s, step);
    StepKeepsBuffers(cfg, s, step);
    StepKeepsPool(cfg, s, step);
    StepKeepsConserved(cfg, s, step);
  }

  lemma StartsSound<A>(cfg: Config, now: int)
    ensures Sound(cfg, Started<A>(cfg, now))
  {
    Pool.StartsSound(cfg.capacity, cfg.workers);
    hide Pool.Sound;
  }

  ghost predicate Possible<A>(cfg: Config, s: State<A>, steps: seq<Step<A>>)
    decreases |steps|, 0
  {
    steps == [] || (Possible(cfg, s, steps[..|steps| - 1]) && Can(After(cfg, s, steps[..|steps| - 1]), steps[|steps| - 1]))
  }

  ghost function After<A>(cfg: Config, s: State<A>, steps: seq<Step<A>>): State<A>
    requires Possible(cfg, s, steps)
    decreases |steps|, 1
  {
    if steps == [] then s else Next(cfg, After(cfg, s, steps[..|steps| - 1]), steps[|steps| - 1])
  }

  /** In every interleaving of webhooks, timers, workers, host replies and the shutdown, each
      accepted guest message is in exactly one place, and every turn handed to the pool is too. */
  lemma {:induction false} EveryMessageIsInOnePlace<A>(cfg: Config, now: int, steps: seq<Step<A>>)
    requires Possible(cfg, Started(cfg, now), steps)
    ensures Sound(cfg, After(cfg, Started(cfg, now), steps))
  {
    hide Sound, Can, Next;
    if steps == [] {
      StartsSound<A>(cfg, now);
    } else {
      var init := steps[..|steps| - 1];
      EveryMessageIsInOnePlace(cfg, now, init);
      StepKeepsSound(cfg, After(cfg, Started(cfg, now), init), steps[|steps| - 1]);
    }
  }

  // ----- only guests are answered -----

  ghost predicate AllGuest(ms: seq<Message>) {
    forall m :: m in ms ==> m.role.Guest?
  }

  ghost predicate OnlyGuests<A>(s: State<A>) {
    && (forall h :: 0 <= h < |s.handlers| ==> AllGuest(s.handlers[h].messages))
    && (forall k :: k in s.deb.buffers ==> AllGuest(s.deb.buffers[k].messages))
    && (forall i :: 0 <= i < |s.pool.senders| ==> AllGuest(s.pool.senders[i].turn.messages))
  }

  lemma PoolKeepsTurns(capacity: nat, p: Pool.State, move: Pool.Step)
    requires Pool.Can(p, move) && !move.Arrive?
    ensures |Pool.Next(capacity, p, move).senders| == |p.senders|
    ensures forall i :: 0 <= i < |p.senders| ==> Pool.Next(capacity, p, move).senders[i].turn == p.senders[i].turn
  {
  }

  lemma StepKeepsOnlyGuests<A>(cfg: Config, s: State<A>, step: Step<A>)
    requires OnlyGuests(s) && Can(s, step)
    ensures OnlyGuests(Next(cfg, s, step))
  {
    hide Debouncer.Stilled, Debouncer.AllStilled, Debouncer.DueAt, Debouncer.Accepted, Dropped, Pool.Can, Stores.ClaimKey, Normalize.Blank;
    match step {
      case PoolMove(move) =>
        PoolKeepsTurns(cfg.capacity, s.pool, move);
        hide Pool.Next;
      case Handle(w, _) =>
        PoolKeepsTurns(cfg.capacity, s.pool, Pool.Finish(w));
        hide Pool.Next;
      case _ =>
    }
  }

  /** Every turn that reaches the pool, in any interleaving, holds guest messages only. */
  lemma {:induction false} TurnsAreFromGuests<A>(cfg: Config, now: int, steps: seq<Step<A>>)
    requires Possible(cfg, Started(cfg, now), steps)
    ensures OnlyGuests(After(cfg, Started(cfg, now), steps))
  {
    if steps != [] {
      hide OnlyGuests, Can, Next;
      TurnsAreFromGuests(cfg, now, steps[..|steps| - 1]);
      StepKeepsOnlyGuests(cfg, After(cfg, Started(cfg, now), steps[..|steps| - 1]), steps[|steps| - 1]);
    }
  }

  // ----- what it means -----

  /** Without '|' in any conversation key, a claim is refused exactly when this very message of
      this very conversation was accepted before. */
  lemma RefusedIffAccepted<A>(s: State<A>, k: Key, id: string)
    requires ClaimsMatch(s) && '|' !in k && forall a :: a in s.accepted ==> '|' !in a.0
    ensures Stores.ClaimKey(k, id) in s.claims <==> (k, id) in s.accepted
  {
    var self := (k, id);
    assert self in s.accepted ==> Stores.ClaimKey(self.0, self.1) in s.claims;
    if Stores.ClaimKey(k, id) in s.claims {
      var a :| a in s.accepted && Stores.ClaimKey(a.0, a.1) == Stores.ClaimKey(k, id);
      ClaimIsInjective(k, id, a.0, a.1);
    }
  }

  lemma ClaimIsInjective(k: Key, id: string, k': Key, id': string)
    requires '|' !in k && '|' !in k' && Stores.ClaimKey(k', id') == Stores.ClaimKey(k, id)
    ensures k == k' && id == id'
  {
    ExtensionHasBar(k, k');
    ExtensionHasBar(k', k);
    if k != k' {
      Stores.CollisionExtends(k, id, k', id');
    } else {
      assert Stores.ClaimKey(k, id)[|k| + 1..] == id;
      assert Stores.ClaimKey(k', id')[|k'| + 1..] == id';
    }
  }

  lemma ExtensionHasBar(a: Key, b: Key)
    ensures Stores.Extends(a, b) ==> '|' in b
  {
    if Stores.Extends(a, b) {
      assert b[|a|] == (a + "|")[|a|];
    }
  }

  /** No message is in two turns, or twice in one. */
  lemma NeverInTwoTurns<A>(cfg: Config, s: State<A>, k: Key, id: string, a: nat, b: nat)
    requires Sound(cfg, s) && a < b < |s.pool.senders|
    ensures SenderLoad(k, id)(s.pool.senders[a]) + SenderLoad(k, id)(s.pool.senders[b]) <= 1
  {
    var xs := s.pool.senders;
    Split(xs, b, SenderLoad(k, id));
    AtLeast(xs[..b], a, SenderLoad(k, id));
    assert xs[..b][a] == xs[a];
    assert Occurrences(s, k, id) <= 1;
    hide Sum, Load, LiveLoad;
  }

  /** Nothing is moving: no handler, buffer or worker holds a turn and no sender waits. The queue may
      still hold what nobody is left to take. */
  ghost predicate Quiet<A>(s: State<A>) {
    && s.handlers == [] && s.deb.buffers == map[]
    && (forall w :: 0 <= w < |s.pool.workers| ==> !s.pool.workers[w].Running?)
    && (forall i :: 0 <= i < |s.pool.senders| ==> s.pool.senders[i].stage.Refused? || s.pool.senders[i].stage.Sent?)
  }

  /** How often turn i has come to an end: refused with a backpressure escalation, or handled. */
  function TurnEnds(p: Pool.State, i: nat): nat {
    (if i < |p.senders| && p.senders[i].stage.Refused? then 1 else 0) + Sum(p.finished, Pool.Same(i))
  }

  /** How often turn i waits in the queue. */
  function TurnWaits(p: Pool.State, i: nat): nat {
    Sum(p.queue, Pool.JobOf(i))
  }

  /** How often message id of conversation k ended within the first n turns. */
  function EndsWithin(p: Pool.State, n: nat, k: Key, id: string): nat
    requires n <= |p.senders|
  {
    if n == 0 then 0
    else EndsWithin(p, n - 1, k, id) + SenderLoad(k, id)(p.senders[n - 1]) * TurnEnds(p, n - 1)
  }

  /** How often it waits within the first n turns. */
  function WaitsWithin(p: Pool.State, n: nat, k: Key, id: string): nat
    requires n <= |p.senders|
  {
    if n == 0 then 0
    else WaitsWithin(p, n - 1, k, id) + SenderLoad(k, id)(p.senders[n - 1]) * TurnWaits(p, n - 1)
  }

  lemma QuietTurnEndsOrWaits<A>(capacity: nat, s: State<A>, i: nat)
    requires Pool.Sound(capacity, s.pool) && Quiet(s) && i < |s.pool.senders|
    ensures TurnEnds(s.pool, i) + TurnWaits(s.pool, i) == 1
  {
    Nothing(s.pool.workers, Pool.RunOf(i));
    assert Pool.Places(s.pool, i) == 1;
    hide Sum;
  }

  lemma {:induction false} NobodyWaits(p: Pool.State, n: nat, k: Key, id: string)
    requires p.queue == [] && n <= |p.senders|
    ensures WaitsWithin(p, n, k, id) == 0
  {
    if n > 0 {
      NobodyWaits(p, n - 1, k, id);
    }
  }

  lemma OneOrOther(load: nat, ends: nat, waits: nat)
    requires ends + waits == 1
    ensures load * ends + load * waits == load
  {
    assert ends == 0 || ends == 1;
  }

  lemma {:induction false} EndsAndWaitsAreLoads<A>(capacity: nat, s: State<A>, n: nat, k: Key, id: string)
    requires Pool.Sound(capacity, s.pool) && Quiet(s) && n <= |s.pool.senders|
    ensures EndsWithin(s.pool, n, k, id) + WaitsWithin(s.pool, n, k, id) == Sum(s.pool.senders[..n], SenderLoad(k, id))
  {
    if n > 0 {
      EndsAndWaitsAreLoads(capacity, s, n - 1, k, id);
      QuietTurnEndsOrWaits(capacity, s, n - 1);
      OneOrOther(SenderLoad(k, id)(s.pool.senders[n - 1]), TurnEnds(s.pool, n - 1), TurnWaits(s.pool, n - 1));
      assert s.pool.senders[..n] == s.pool.senders[..n - 1] + [s.pool.senders[n - 1]];
      Snoc(s.pool.senders[..n - 1], s.pool.senders[n - 1], SenderLoad(k, id));
      hide Sum, TurnEnds, TurnWaits, SenderLoad;
    }
  }

  /** Once everything is quiet, every accepted message is in exactly one of: discarded for a named
      cause, refused with a backpressure escalation, handled by a worker, or left in the queue; with
      an empty queue it has come to exactly one end. Nothing that was not accepted is in any. */
  lemma QuietMeansEndedOrStranded<A>(cfg: Config, s: State<A>, k: Key, id: string)
    requires Sound(cfg, s) && Quiet(s)
    ensures Sum(s.discarded, DiscardLoad(k, id)) + EndsWithin(s.pool, |s.pool.senders|, k, id)
            + WaitsWithin(s.pool, |s.pool.senders|, k, id)
            == if (k, id) in s.accepted then 1 else 0
    ensures s.pool.queue == [] ==> WaitsWithin(s.pool, |s.pool.senders|, k, id) == 0
  {
    if s.pool.queue == [] {
      NobodyWaits(s.pool, |s.pool.senders|, k, id);
    }
    EndsAndWaitsAreLoads(cfg.capacity, s, |s.pool.senders|, k, id);
    assert s.pool.senders[..|s.pool.senders|] == s.pool.senders;
    assert Occurrences(s, k, id) == if (k, id) in s.accepted then 1 else 0;
    hide EndsWithin, WaitsWithin;
  }

  // ----- the pool inside the pipeline -----

  /** What a step of the pipeline is to the pool, if anything. */
  ghost function PoolStepsOf<A>(s: State<A>, step: Step<A>): seq<Pool.Step>
    requires Can(s, step)
  {
    match step
    case Fire(i) =>
      var k := s.deb.timers[i].key;
      if k in s.deb.buffers then [Pool.Arrive(Debouncer.TurnOf(k, s.deb.buffers[k]))] else []
    case PoolMove(move) => [move]
    case Handle(w, _) => [Pool.Finish(w)]
    case _ => []
  }

  ghost function PoolRun<A>(cfg: Config, s: State<A>, steps: seq<Step<A>>): seq<Pool.Step>
    requires Possible(cfg, s, steps)
  {
    if steps == [] then []
    else PoolRun(cfg, s, steps[..|steps| - 1]) + PoolStepsOf(After(cfg, s, steps[..|steps| - 1]), steps[|steps| - 1])
  }

  lemma StepIsPoolStep<A>(cfg: Config, s: State<A>, step: Step<A>)
    requires Can(s, step)
    ensures
      var moves, pool := PoolStepsOf(s, step), Next(cfg, s, step).pool;
      || (moves == [] && pool == s.pool)
      || (|moves| == 1 && Pool.Can(s.pool, moves[0]) && pool == Pool.Next(cfg.capacity, s.pool, moves[0]))
  {
    hide Pool.Next, Debouncer.Pushed, Debouncer.Accepted, Debouncer.Cancelled, Debouncer.AllStilled, Dropped, Stores.ClaimKey;
  }

  /** Seen from the pool, every run of the pipeline is a run of the pool. */
  lemma {:induction false} PoolRunsAlone<A>(cfg: Config, now: int, steps: seq<Step<A>>)
    requires Possible(cfg, Started(cfg, now), steps)
    ensures
      var moves := PoolRun(cfg, Started(cfg, now), steps);
      && Pool.Possible(cfg.capacity, Pool.Started(cfg.workers), moves)
      && Pool.After(cfg.capacity, Pool.Started(cfg.workers), moves) == After(cfg, Started(cfg, now), steps).pool
  {
    hide Can, Next, PoolStepsOf, Pool.Can, Pool.Next;
    if steps != [] {
      var init, last := steps[..|steps| - 1], steps[|steps| - 1];
      PoolRunsAlone(cfg, now, init);
      var s, moves := After(cfg, Started(cfg, now), init), PoolRun(cfg, Started(cfg, now), init);
      StepIsPoolStep(cfg, s, last);
      if PoolStepsOf(s, last) == [] {
        assert moves + [] == moves;
      } else {
        assert PoolStepsOf(s, last) == [PoolStepsOf(s, last)[0]];
        Pool.OneMore(cfg.capacity, Pool.Started(cfg.workers), moves, PoolStepsOf(s, last)[0]);
      }
    }
  }

  /** How every run that shuts down completely ends: each accepted message is in exactly one of
      discarded, refused, handled and stranded, and the stranded turns are exactly those the pool
      accepted after its last worker had left. */
  lemma ShutdownAccountsForAll<A>(cfg: Config, now: int, steps: seq<Step<A>>, k: Key, id: string, a: nat)
    requires Possible(cfg, Started(cfg, now), steps)
    requires Quiet(After(cfg, Started(cfg, now), steps)) && Pool.AllExited(After(cfg, Started(cfg, now), steps).pool)
    ensures
      var s := After(cfg, Started(cfg, now), steps);
      Sum(s.discarded, DiscardLoad(k, id)) + EndsWithin(s.pool, |s.pool.senders|, k, id)
      + WaitsWithin(s.pool, |s.pool.senders|, k, id) == if (k, id) in s.accepted then 1 else 0
    ensures
      var pool, moves := After(cfg, Started(cfg, now), steps).pool, PoolRun(cfg, Started(cfg, now), steps);
      && Pool.Possible(cfg.capacity, Pool.Started(cfg.workers), moves)
      && (a < |pool.sent| ==>
            TurnWaits(pool, pool.sent[a].sender)
            == if a < Pool.SentAlive(cfg.capacity, cfg.workers, moves) then 0 else 1)
  {
    hide Possible, After, Quiet, Sound, EndsWithin, WaitsWithin, Sum, Pool.Possible, Pool.After, Pool.AllExited, Pool.SentAlive;
    var s, moves := After(cfg, Started(cfg, now), steps), PoolRun(cfg, Started(cfg, now), steps);
    EveryMessageIsInOnePlace(cfg, now, steps);
    QuietMeansEndedOrStranded(cfg, s, k, id);
    PoolRunsAlone(cfg, now, steps);
    if a < |s.pool.sent| {
      Pool.HandledIffSentAlive(cfg.capacity, cfg.workers, moves, a);
    }
  }
}
