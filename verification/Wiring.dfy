/** The callbacks that join the debouncer to the pool and the pool to the orchestrator
    (cmd/server/main.go). */
module Wiring {
  import opened Domain
  import opened Trace
  import Agent
  import Debouncer
  import Guarantees
  import Orchestrator
  import Pipeline
  import Pool
  import Stores
  import Sums
  import Webhook

  // ----- from the debouncer into the pool -----

  class Enqueuer {
    const pool: Pool.Queue
    var escalations: seq<Webhook.Escalation>

    constructor (pool: Pool.Queue)
      ensures this.pool == pool && escalations == []
    {
      this.pool, escalations := pool, [];
    }

    /** A flushed turn either joins the queue or leaves one backpressure escalation. */
    method Flush(t: Turn)
      modifies this, pool`waiting
      ensures
        if !pool.done && |old(pool.waiting)| < pool.capacity
        then pool.waiting == old(pool.waiting) + [t] && escalations == old(escalations)
        else pool.waiting == old(pool.waiting)
             && escalations == old(escalations) + [Webhook.Escalation(t.key, t.lastPostID, "backpressure_drop")]
    {
      var accepted := pool.Enqueue(t);
      if accepted {
        return;
      }
      escalations := escalations + [Webhook.Escalation(t.key, t.lastPostID, "backpressure_drop")];
    }
  }

  // ----- from the pool into the orchestrator -----

  const DEFAULT_LISTING := "L1"

  /** A reservation's own listing, or the default: never the empty id. */
  function ResolveListing(reservations: seq<string>): (listing: string)
    ensures listing != ""
    ensures listing == DEFAULT_LISTING || (reservations != [] && listing == reservations[0])
    ensures reservations != [] && reservations[0] != "" ==> listing == reservations[0]
  {
    if reservations != [] && reservations[0] != "" then reservations[0] else DEFAULT_LISTING
  }

  /** Some host message of the fetched thread is newer than the last message of the turn. */
  ghost predicate HostIsAhead(conv: Conversation, t: Turn) {
    t.messages != []
    && exists i :: 0 <= i < |conv.thread| && conv.thread[i].role.Host?
                   && conv.thread[i].createdAt > t.messages[|t.messages| - 1].createdAt
  }

  method HostAlreadyReplied(conv: Conversation, t: Turn) returns (replied: bool)
    ensures replied <==> HostIsAhead(conv, t)
  {
    if |t.messages| == 0 {
      return false;
    }
    var turnLast := t.messages[|t.messages| - 1].createdAt;
    var i := 0;
    while i < |conv.thread|
      invariant 0 <= i <= |conv.thread|
      invariant forall j :: 0 <= j < i ==> !(conv.thread[j].role.Host? && conv.thread[j].createdAt > turnLast)
    {
      var m := conv.thread[i];
      if m.role.Host? && m.createdAt > turnLast {
        return true;
      }
      i := i + 1;
    }
    return false;
  }

  /** What the platform knows of the conversation when a worker takes the turn; None is a failed
      fetch. */
  datatype Fetched = Fetched(conv: Conversation, reservations: seq<string>)

  function InputOf(t: Turn, f: Fetched, now: int): Input {
    Input(t, f.conv, ResolveListing(f.reservations), now)
  }

  /** How a worker's handling of a turn ends. */
  datatype Outcome = FetchFailed | AlreadyReplied | Delivered | Escalated

  /** Everything the outside answers while a worker handles one turn. */
  datatype Handling = Handling(fetch: Option<Fetched>, now: int, oracle: Orchestrator.Oracle)

  /** What handling a turn emits. */
  ghost function HandlingLog(d: Orchestrator.Deps, t: Turn, h: Handling): seq<Event> {
    if h.fetch.None? || HostIsAhead(h.fetch.value.conv, t) then []
    else Orchestrator.RunLog(d, InputOf(t, h.fetch.value, h.now), h.oracle)
  }

  ghost function OutcomeOf(d: Orchestrator.Deps, t: Turn, h: Handling): Outcome {
    if h.fetch.None? then FetchFailed
    else if HostIsAhead(h.fetch.value.conv, t) then AlreadyReplied
    else if Count(HandlingLog(d, t, h), Guarantees.IsDelivered) > 0 then Delivered
    else Escalated
  }

  /** The label says exactly what was emitted: one delivered note, one escalation, or nothing. */
  ghost predicate Matches(outcome: Outcome, log: seq<Event>) {
    match outcome
    case Delivered => Count(log, Guarantees.IsDelivered) == 1 && Count(log, Guarantees.IsEscalation) == 0
    case Escalated => Count(log, Guarantees.IsDelivered) == 0 && Count(log, Guarantees.IsEscalation) == 1
    case _ => log == []
  }

  /** The outcome a worker's handling ends with matches what it emitted. */
  lemma HandlingMatchesOutcome(d: Orchestrator.Deps, t: Turn, h: Handling)
    ensures Matches(OutcomeOf(d, t, h), HandlingLog(d, t, h))
  {
    hide Orchestrator.RunLog, Count, HostIsAhead;
    if h.fetch.Some? {
      Guarantees.ExactlyOneOutcome(d, InputOf(t, h.fetch.value, h.now), h.oracle);
    }
  }

  /** A run the flusher starts is for the turn it was handed, with the fetched conversation, and has
      a listing; so a promise it posts on the generator path is backed by a platform call for that
      very listing: the first reservation's own, or the default. */
  lemma FlushedPromisesNameTheListing(d: Orchestrator.Deps, t: Turn, f: Fetched, now: int, o: Orchestrator.Oracle)
    ensures
      var inp := InputOf(t, f, now);
      && inp.turn == t && inp.conv == f.conv && inp.now == now && inp.listingID != ""
      && (inp.listingID == DEFAULT_LISTING || (f.reservations != [] && inp.listingID == f.reservations[0]))
      && match Orchestrator.Run(d, inp, o).ending
         case Handed(_, _, _, _) => true
         case Posted(cls, reply, _) =>
           !(cls.primary == X1 && d.hasQualifier) ==>
             var log := Orchestrator.RunLog(d, inp, o);
             && (reply.sellCertainty ==> exists e :: e in log && Checked(e, inp.listingID))
             && (d.patterns.holdPromise(reply.body) ==> exists e :: e in log && Reserved(e, inp.listingID))
  {
    var inp := InputOf(t, f, now);
    Guarantees.PostedPromisesAreGrounded(d, inp, o);
    hide Orchestrator.Run, Orchestrator.RunLog, Agent.Generation;
    forall e ensures Agent.AvailabilityConfirmed(e, inp.listingID) ==> Checked(e, inp.listingID)
             ensures Agent.HoldConfirmed(e, inp.listingID) ==> Reserved(e, inp.listingID)
    {
    }
  }

  /** The platform answered an availability check, or a hold, for this listing. */
  predicate Checked(e: Event, listing: string) {
    e.GuestyCalled? && e.request.CheckAvailability? && e.answer.Done? && e.request.listingID == listing
  }

  predicate Reserved(e: Event, listing: string) {
    e.GuestyCalled? && e.request.CreateReservation? && e.answer.Done? && e.request.listingID == listing
  }

  class Flusher {
    const useCase: Orchestrator.UseCase

    constructor (useCase: Orchestrator.UseCase)
      ensures this.useCase == useCase
    {
      this.useCase := useCase;
    }

    method Handle(t: Turn, h: Handling)
      modifies useCase, useCase.memory
      ensures
        var seen := h.(oracle := Orchestrator.Seeing(h.oracle, Stores.Lookup(old(useCase.memory.records), t.key)));
        useCase.log == old(useCase.log) + HandlingLog(useCase.d, t, seen)
    {
      if h.fetch.None? {
        return;
      }
      var replied := HostAlreadyReplied(h.fetch.value.conv, t);
      if replied {
        return;
      }
      useCase.Process(InputOf(t, h.fetch.value, h.now), h.oracle);
    }
  }

  // ----- the pipeline with the orchestrator at its end -----

  /** The i-th finished turn of a pipeline whose workers run the orchestrator. */
  function FinishedTurn(s: Pipeline.State<Handling>, i: nat): Turn
    requires i < |s.pool.finished| && s.pool.finished[i] < |s.pool.senders|
  {
    s.pool.senders[s.pool.finished[i]].turn
  }

  lemma FinishedIsASender<A>(cfg: Pipeline.Config, s: Pipeline.State<A>, i: nat)
    requires Pipeline.Sound(cfg, s) && i < |s.pool.finished|
    ensures s.pool.finished[i] < |s.pool.senders| && i < |s.answers|
  {
    Sums.AtLeast(s.pool.finished, i, Pool.Same(s.pool.finished[i]));
    assert Pool.Places(s.pool, s.pool.finished[i]) > 0;
    hide Sums.Sum;
  }

  /** End to end, in every interleaving and for every answer from outside: each accepted message is
      in exactly one place, and every turn a worker has finished ended with the one delivered
      note, the one escalation, or the nothing its outcome names. */
  lemma EveryMessageIsAnsweredFor(d: Orchestrator.Deps, cfg: Pipeline.Config, now: int, steps: seq<Pipeline.Step<Handling>>, i: nat)
    requires Pipeline.Possible(cfg, Pipeline.Started(cfg, now), steps)
    ensures
      var s := Pipeline.After(cfg, Pipeline.Started(cfg, now), steps);
      && Pipeline.Sound(cfg, s)
      && (i < |s.pool.finished| ==>
            && s.pool.finished[i] < |s.pool.senders| && i < |s.answers|
            && var t, h := FinishedTurn(s, i), s.answers[i];
               Matches(OutcomeOf(d, t, h), HandlingLog(d, t, h)))
  {
    hide Pipeline.Sound, Pipeline.After, Pipeline.Possible, Matches, OutcomeOf, HandlingLog;
    var s := Pipeline.After(cfg, Pipeline.Started(cfg, now), steps);
    Pipeline.EveryMessageIsInOnePlace(cfg, now, steps);
    if i < |s.pool.finished| {
      FinishedIsASender(cfg, s, i);
      HandlingMatchesOutcome(d, FinishedTurn(s, i), s.answers[i]);
    }
  }

  // ----- shutdown -----

  /** The order of the shutdown: buffers are dropped first, then the pool is closed and drained. */
  method Shutdown(debouncer: Debouncer.Timed, pool: Pool.Queue)
    modifies debouncer, pool`done, pool`waiting, pool`handled
    ensures debouncer.Now() == Debouncer.Halted(old(debouncer.Now()))
    ensures pool.done && pool.waiting == [] && pool.handled == old(pool.handled) + old(pool.waiting)
  {
    debouncer.Stop();
    pool.Close();
    pool.DrainRemaining();
  }
}
