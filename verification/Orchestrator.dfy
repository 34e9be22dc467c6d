/** The orchestrator (internal/application/processinquiry/usecase.go): every run as the effects
    it emits, whatever the models, the platform, the stores and the toggle answer. */
module Orchestrator {
  import opened Domain
  import opened Trace
  import opened Memory
  import Agent
  import Commitment
  import Gates
  import PromptSafety
  import Stores
  import ThreadMerge

  // ----- collaborators and their answers -----

  datatype Deps = Deps(
    injections: seq<PromptSafety.NamedPattern>,
    lower: char -> char,
    patterns: Gates.Patterns,
    wire: Agent.Wire,
    hasQualifier: bool,
    hasReplies: bool,
    hasCritic: bool,
    hasSummarizer: bool,
    limits: Limits,
    thresholds: Gates.Thresholds,
    maxTurns: int)

  datatype Verdict = Verdict(pass: bool, issues: seq<string>)

  /** Every answer one run receives from outside. The toggle may change between reads; None is
      an error return. The memory is read once for context and again when the turn closes. */
  datatype Oracle = Oracle(
    toggle: nat -> bool,
    prior: Record,
    replies: Commitment.Replies,
    classify: Option<Classification>,
    qualify: Option<Reply>,
    script: Agent.Script,
    verdict: Verdict,
    postAccepted: bool,
    atClose: Record,
    summary: Option<string>)

  function Seeing(o: Oracle, r: Record): Oracle {
    o.(prior := r, atClose := r)
  }

  function SummarizerOf(d: Deps, o: Oracle): Summarizer {
    if !d.hasSummarizer then Absent
    else match o.summary
      case None => Failed
      case Some(text) => Answers(text)
  }

  // ----- the pure steps -----

  function FirstInjection(table: seq<PromptSafety.NamedPattern>, ms: seq<Message>): Option<string>
    decreases |ms|
  {
    if ms == [] then None
    else
      var hit := PromptSafety.DetectWithPattern(table, ms[0].body);
      if hit.Some? then hit else FirstInjection(table, ms[1..])
  }

  function LastGuestBody(t: Turn): string {
    if t.messages == [] then "" else t.messages[|t.messages| - 1].body
  }

  function PriorThread(inp: Input, prior: Record): seq<Message> {
    ThreadMerge.Merged(prior.thread, inp.conv.thread, ThreadMerge.PostIDs(inp.turn.messages))
  }

  function PriorScan(d: Deps, inp: Input, o: Oracle): Commitment.Scan {
    Commitment.Scan(d.lower, o.replies, PriorThread(inp, o.prior), LastGuestBody(inp.turn))
  }

  /** The accepted offer a human must take over, if the scan finds one. */
  function AcceptedOffer(d: Deps, inp: Input, o: Oracle): Option<Commitment.Match> {
    if LastGuestBody(inp.turn) == "" || PriorScan(d, inp, o).Candidate().None? then None
    else
      var s := PriorScan(d, inp, o);
      Commitment.Detect(s.lower, s.thread[s.Candidate().value].body, s.guestBody)
  }

  function Handoff(m: Commitment.Match): Ending {
    Handed(Decision(false, Commitment.ESCALATION_TAG, ["matched_offer=" + m.offer, "matched_reply=" + m.reply]),
           NO_CLASSIFICATION, None, true)
  }

  predicate Saturated(e: Entities) {
    e.checkIn.Some? && e.checkOut.Some? && e.guestCount.Some?
  }

  predicate BlockerTag(tag: string) {
    tag in {"hedging", "off_topic", "critic_uncertain"}
  }

  function Blockers(tags: seq<string>): seq<string> {
    if tags == [] then []
    else Blockers(tags[..|tags| - 1]) + (if BlockerTag(tags[|tags| - 1]) then ["critic:" + tags[|tags| - 1]] else [])
  }

  function CriticIssues(d: Deps, o: Oracle): seq<string> {
    if !d.hasCritic || o.verdict.pass || Blockers(o.verdict.issues) == [] then []
    else ["critic_rejected"] + Blockers(o.verdict.issues)
  }

  // ----- a run as body plus ending -----

  /** How a run ends. Handed to a human, with or without a memory update; or posted, where the
      platform may still refuse the note. */
  datatype Ending =
    | Handed(decision: Decision, cls: Classification, attached: Option<Reply>, remembered: bool)
    | Posted(cls: Classification, reply: Reply, accepted: bool)

  datatype RunTrace = RunTrace(body: seq<Event>, ending: Ending)

  function Then(prefix: seq<Event>, t: RunTrace): RunTrace {
    RunTrace(prefix + t.body, t.ending)
  }

  function Escalate(reason: string, cls: Classification, remembered: bool): Ending {
    Handed(Decision(false, reason, []), cls, None, remembered)
  }

  function Run(d: Deps, inp: Input, o: Oracle): RunTrace {
    match FirstInjection(d.injections, inp.turn.messages)
    case Some(pattern) =>
      RunTrace([], Handed(Decision(false, "prompt_injection_suspected", [pattern]), NO_CLASSIFICATION, None, false))
    case None =>
      if !o.toggle(0) then RunTrace([ToggleRead(false)], Escalate("auto_disabled", NO_CLASSIFICATION, true))
      else Then([ToggleRead(true), MemoryRead(inp.turn.key, o.prior)], AfterPrior(d, inp, o))
  }

  function AfterPrior(d: Deps, inp: Input, o: Oracle): RunTrace {
    if AcceptedOffer(d, inp, o).Some? then RunTrace([], Handoff(AcceptedOffer(d, inp, o).value))
    else
      Then([Chat(Classifier, [])],
        match o.classify
        case None => RunTrace([], Escalate("classifier_failed", NO_CLASSIFICATION, false))
        case Some(raw) => Then([ClassificationStored(inp.turn.lastPostID, raw)], Route(d, inp, o, Gates.EnforcePriority(raw))))
  }

  function Route(d: Deps, inp: Input, o: Oracle, cls: Classification): RunTrace {
    if cls.primary == X1 && d.hasQualifier then
      if Saturated(o.prior.entities) then RunTrace([], Escalate("qualifier_saturated", cls, true))
      else Qualify(d, inp, o, cls)
    else
      var gate1 := Gates.PreGenerate(cls, o.toggle(1), d.thresholds.classifierMin);
      if !gate1.autoSend then RunTrace([ToggleRead(o.toggle(1))], Handed(gate1, cls, None, true))
      else Then([ToggleRead(true)], Compose(d, inp, o, cls))
  }

  function Stored(d: Deps, inp: Input, reply: Reply): seq<Event> {
    if d.hasReplies then [ReplyStored(inp.turn.lastPostID, reply)] else []
  }

  /** GATE 2 of either path, on the last toggle read. */
  function FinalDecision(d: Deps, o: Oracle, cls: Classification, reply: Reply, qualifier: bool, issues: seq<string>): Decision {
    if qualifier then Gates.DecideQualifier(d.patterns, reply, o.toggle(2), d.thresholds.generatorMin)
    else Gates.Decide(d.patterns, cls, reply, issues, o.toggle(2), d.thresholds)
  }

  /** The final gate: one last toggle read, then post or hand over. */
  function Conclude(o: Oracle, cls: Classification, reply: Reply, final: Decision): RunTrace {
    RunTrace([ToggleRead(o.toggle(2))],
             if final.autoSend then Posted(cls, reply, o.postAccepted) else Handed(final, cls, Some(reply), true))
  }

  function Qualify(d: Deps, inp: Input, o: Oracle, cls: Classification): RunTrace {
    if !o.toggle(1) then RunTrace([ToggleRead(false)], Escalate("auto_disabled", cls, true))
    else
      Then([ToggleRead(true), Chat(Qualifier, [])],
        match o.qualify
        case None => RunTrace([], Escalate("qualifier_failed", cls, false))
        case Some(reply) =>
          Then(Stored(d, inp, reply),
               Conclude(o, cls, reply, FinalDecision(d, o, cls, reply, true, []))))
  }

  function Generated(d: Deps, inp: Input, o: Oracle): Agent.Outcome {
    Agent.Generation(d.wire, o.script, inp.listingID, d.maxTurns)
  }

  function Compose(d: Deps, inp: Input, o: Oracle, cls: Classification): RunTrace {
    var gen := Generated(d, inp, o);
    Then(gen.events,
      match gen.reply
      case None => RunTrace([], Escalate("generator_failed", cls, false))
      case Some(reply) => Then(Stored(d, inp, reply), GateAndSend(d, o, cls, reply)))
  }

  function GateIssues(d: Deps, o: Oracle, reply: Reply): seq<string> {
    Gates.ReplyIssues(d.patterns, reply) + CriticIssues(d, o)
  }

  function GateAndSend(d: Deps, o: Oracle, cls: Classification, reply: Reply): RunTrace {
    Then(if d.hasCritic then [Chat(Critic, [])] else [],
         Conclude(o, cls, reply, FinalDecision(d, o, cls, reply, false, GateIssues(d, o, reply))))
  }

  // ----- what an ending writes -----

  function CloseLog(d: Deps, inp: Input, o: Oracle, c: Closing): seq<Event> {
    (if d.hasSummarizer && Overflows(d.limits, Extended(o.atClose.thread, c)) then [Chat(Summarizing, [])] else [])
    + [MemoryClosed(o.atClose, c, SummarizerOf(d, o)), Completed(inp.turn.key, inp.turn.lastPostID)]
  }

  function EscalationEvent(inp: Input, decision: Decision, cls: Classification, reply: Option<Reply>): Event {
    EscalationRecorded(inp.turn.key, inp.turn.lastPostID, decision, cls, reply)
  }

  function EndingLog(d: Deps, inp: Input, o: Oracle, e: Ending): seq<Event> {
    match e
    case Handed(decision, cls, reply, remembered) =>
      [EscalationEvent(inp, decision, cls, reply)]
      + (if remembered then CloseLog(d, inp, o, Closing(inp, cls, reply, false))
         else [Completed(inp.turn.key, inp.turn.lastPostID)])
    case Posted(cls, reply, accepted) =>
      [NotePosted(inp.turn.key, inp.conv.rawID, reply.body, inp.now, accepted)]
      + (if accepted then CloseLog(d, inp, o, Closing(inp, cls, Some(reply), true))
         else [EscalationEvent(inp, Decision(false, "post_note_failed", []), cls, Some(reply))]
              + CloseLog(d, inp, o, Closing(inp, cls, Some(reply), false)))
  }

  function TraceLog(d: Deps, inp: Input, o: Oracle, t: RunTrace): seq<Event> {
    t.body + EndingLog(d, inp, o, t.ending)
  }

  function RunLog(d: Deps, inp: Input, o: Oracle): seq<Event> {
    TraceLog(d, inp, o, Run(d, inp, o))
  }

  /** The turn as it is written to memory, if it is. */
  function ClosingOf(inp: Input, e: Ending): Option<Closing> {
    match e
    case Handed(_, cls, reply, remembered) => if remembered then Some(Closing(inp, cls, reply, false)) else None
    case Posted(cls, reply, accepted) => Some(Closing(inp, cls, Some(reply), accepted))
  }

  function RecordsAfter(d: Deps, o: Oracle, records: map<Key, Record>, c: Option<Closing>): map<Key, Record> {
    match c
    case None => records
    case Some(closing) =>
      var k := closing.input.turn.key;
      records[k := Closed(d.limits, Stores.Lookup(records, k), closing, SummarizerOf(d, o))]
  }

  /** A run that has emitted prefix and goes on as t. */
  lemma GoesOn(d: Deps, inp: Input, o: Oracle, before: seq<Event>, prefix: seq<Event>, t: RunTrace)
    ensures (before + prefix) + TraceLog(d, inp, o, t) == before + TraceLog(d, inp, o, Then(prefix, t))
  {
    hide EndingLog;
  }

  /** A run that has emitted body and ends with e. */
  lemma EndsAs(d: Deps, inp: Input, o: Oracle, before: seq<Event>, body: seq<Event>, e: Ending)
    ensures (before + body) + EndingLog(d, inp, o, e) == before + TraceLog(d, inp, o, RunTrace(body, e))
  {
    hide EndingLog;
  }

  // ----- the orchestrator as the source runs it -----

  class UseCase {
    const d: Deps
    const memory: Stores.ConversationMemory
    var log: seq<Event>

    constructor (d: Deps, memory: Stores.ConversationMemory)
      ensures this.d == d && this.memory == memory && log == []
    {
      this.d, this.memory, log := d, memory, [];
    }

    /** The store answers the close of this turn with the record it holds now. */
    ghost predicate Ready(inp: Input, o: Oracle)
      reads this, memory
    {
      o.atClose == Stores.Lookup(memory.records, inp.turn.key)
    }

    /** The effects of a run that went as t says. */
    twostate predicate Ran(inp: Input, o: Oracle, t: RunTrace)
      reads this, memory
    {
      && log == old(log) + TraceLog(d, inp, o, t)
      && memory.records == RecordsAfter(d, o, old(memory.records), ClosingOf(inp, t.ending))
    }

    /** The full pipeline for a debounced turn. */
    method Process(inp: Input, o: Oracle)
      modifies this, memory
      ensures
        var seen := Seeing(o, Stores.Lookup(old(memory.records), inp.turn.key));
        && log == old(log) + RunLog(d, inp, seen)
        && memory.records == RecordsAfter(d, o, old(memory.records), ClosingOf(inp, Run(d, inp, seen).ending))
    {
      hide AfterPrior, FirstInjection, EndingLog, ClosingOf;
      // Alone, a run reads and closes the same record.
      var found := memory.Get(inp.turn.key);
      var seen := Seeing(o, found);
      ghost var before := log;
      assert SummarizerOf(d, seen) == SummarizerOf(d, o);
      var pattern := DetectInjection(inp.turn.messages);
      if pattern.Some? {
        HandOver(inp, seen, Handed(Decision(false, "prompt_injection_suspected", [pattern.value]), NO_CLASSIFICATION, None, false));
        EndsAs(d, inp, seen, before, [], Run(d, inp, seen).ending);
        assert before + [] == before;
        return;
      }
      var enabled := seen.toggle(0);
      log := log + [ToggleRead(enabled)];
      if !enabled {
        HandOver(inp, seen, Escalate("auto_disabled", NO_CLASSIFICATION, true));
        EndsAs(d, inp, seen, before, [ToggleRead(false)], Run(d, inp, seen).ending);
        return;
      }
      var prior := memory.Get(inp.turn.key);
      log := log + [MemoryRead(inp.turn.key, prior)];
      ProcessWithPrior(inp, seen);
      ghost var prefix := [ToggleRead(true), MemoryRead(inp.turn.key, prior)];
      assert before + [ToggleRead(true)] + [MemoryRead(inp.turn.key, prior)] == before + prefix;
      GoesOn(d, inp, seen, before, prefix, AfterPrior(d, inp, seen));
    }

    method DetectInjection(ms: seq<Message>) returns (pattern: Option<string>)
      ensures pattern == FirstInjection(d.injections, ms)
    {
      var i := 0;
      while i < |ms|
        invariant 0 <= i <= |ms|
        invariant FirstInjection(d.injections, ms) == FirstInjection(d.injections, ms[i..])
      {
        var hit := PromptSafety.DetectWithPattern(d.injections, ms[i].body);
        assert ms[i..][1..] == ms[i + 1..];
        if hit.Some? {
          return hit;
        }
        i := i + 1;
      }
      return None;
    }

    method ProcessWithPrior(inp: Input, o: Oracle)
      requires Ready(inp, o)
      modifies this, memory
      ensures Ran(inp, o, AfterPrior(d, inp, o))
    {
      hide Route, EndingLog, ClosingOf, RecordsAfter, AcceptedOffer, Gates.EnforcePriority;
      ghost var before := log;
      var candidate := FindCommitment(inp, o);
      if candidate.Some? {
        HandOver(inp, o, Handoff(candidate.value));
        EndsAs(d, inp, o, before, [], AfterPrior(d, inp, o).ending);
        assert before + [] == before;
        return;
      }
      log := log + [Chat(Classifier, [])];
      match o.classify {
        case None =>
          HandOver(inp, o, Escalate("classifier_failed", NO_CLASSIFICATION, false));
          EndsAs(d, inp, o, before, [Chat(Classifier, [])], AfterPrior(d, inp, o).ending);
        case Some(raw) =>
          log := log + [ClassificationStored(inp.turn.lastPostID, raw)];
          var cls := Gates.EnforcePriority(raw);
          ProcessClassified(inp, o, cls);
          ghost var stored := [ClassificationStored(inp.turn.lastPostID, raw)];
          GoesOn(d, inp, o, before + [Chat(Classifier, [])], stored, Route(d, inp, o, cls));
          GoesOn(d, inp, o, before, [Chat(Classifier, [])], Then(stored, Route(d, inp, o, cls)));
      }
    }

    /** The deterministic scan over the merged prior thread. */
    method FindCommitment(inp: Input, o: Oracle) returns (found: Option<Commitment.Match>)
      ensures found == AcceptedOffer(d, inp, o)
    {
      hide Commitment.Detect;
      var guestBody := LastGuestBody(inp.turn);
      if guestBody == "" {
        return None;
      }
      var thread := ThreadMerge.MergeThread(o.prior.thread, inp.conv.thread, inp.turn.messages);
      var candidate := Commitment.LatestCommitmentCandidate(Commitment.Scan(d.lower, o.replies, thread, guestBody));
      match candidate {
        case None => return None;
        case Some(c) => return Some(c.1);
      }
    }

    method ProcessClassified(inp: Input, o: Oracle, cls: Classification)
      requires Ready(inp, o)
      modifies this, memory
      ensures Ran(inp, o, Route(d, inp, o, cls))
    {
      hide Qualify, Compose, Gates.PreGenerate, EndingLog, ClosingOf, RecordsAfter;
      ghost var before := log;
      if cls.primary == X1 && d.hasQualifier {
        if Saturated(o.prior.entities) {
          HandOver(inp, o, Escalate("qualifier_saturated", cls, true));
          EndsAs(d, inp, o, before, [], Route(d, inp, o, cls).ending);
          assert before + [] == before;
          return;
        }
        QualifyAndSend(inp, o, cls);
        return;
      }
      var enabled := o.toggle(1);
      log := log + [ToggleRead(enabled)];
      var gate1 := Gates.PreGenerate(cls, enabled, d.thresholds.classifierMin);
      if !gate1.autoSend {
        HandOver(inp, o, Handed(gate1, cls, None, true));
        EndsAs(d, inp, o, before, [ToggleRead(enabled)], Route(d, inp, o, cls).ending);
        return;
      }
      GateOneNeedsToggle(cls, enabled, d.thresholds.classifierMin);
      GenerateAndSend(inp, o, cls);
      GoesOn(d, inp, o, before, [ToggleRead(true)], Compose(d, inp, o, cls));
    }

    method QualifyAndSend(inp: Input, o: Oracle, cls: Classification)
      requires Ready(inp, o)
      modifies this, memory
      ensures Ran(inp, o, Qualify(d, inp, o, cls))
    {
      hide Gates.DecideQualifier, EndingLog, ClosingOf, RecordsAfter, Conclude;
      ghost var before := log;
      var enabled := o.toggle(1);
      log := log + [ToggleRead(enabled)];
      if !enabled {
        HandOver(inp, o, Escalate("auto_disabled", cls, true));
        EndsAs(d, inp, o, before, [ToggleRead(false)], Qualify(d, inp, o, cls).ending);
        return;
      }
      log := log + [Chat(Qualifier, [])];
      ghost var asked := [ToggleRead(true), Chat(Qualifier, [])];
      assert log == before + asked;
      match o.qualify {
        case None =>
          HandOver(inp, o, Escalate("qualifier_failed", cls, false));
          EndsAs(d, inp, o, before, asked, Qualify(d, inp, o, cls).ending);
          assert asked + [] == asked;
        case Some(reply) =>
          StoreReply(inp, reply);
          SendOrEscalate(inp, o, cls, reply, true, []);
          ghost var t := Conclude(o, cls, reply, FinalDecision(d, o, cls, reply, true, []));
          GoesOn(d, inp, o, before + asked, Stored(d, inp, reply), t);
          GoesOn(d, inp, o, before, asked, Then(Stored(d, inp, reply), t));
      }
    }

    method GenerateAndSend(inp: Input, o: Oracle, cls: Classification)
      requires Ready(inp, o)
      modifies this, memory
      ensures Ran(inp, o, Compose(d, inp, o, cls))
    {
      hide GateAndSend, Agent.Generation, EndingLog, ClosingOf, RecordsAfter;
      ghost var before := log;
      var events, reply := Agent.Generate(d.wire, o.script, inp.listingID, d.maxTurns);
      log := log + events;
      match reply {
        case None =>
          HandOver(inp, o, Escalate("generator_failed", cls, false));
          EndsAs(d, inp, o, before, events, Compose(d, inp, o, cls).ending);
          assert events + [] == events;
        case Some(r) =>
          StoreReply(inp, r);
          GateTwo(inp, o, cls, r);
          ghost var t := GateAndSend(d, o, cls, r);
          GoesOn(d, inp, o, before + events, Stored(d, inp, r), t);
          GoesOn(d, inp, o, before, events, Then(Stored(d, inp, r), t));
      }
    }

    method GateTwo(inp: Input, o: Oracle, cls: Classification, reply: Reply)
      requires Ready(inp, o)
      modifies this, memory
      ensures Ran(inp, o, GateAndSend(d, o, cls, reply))
    {
      hide Gates.ReplyIssues, CriticIssues, EndingLog, ClosingOf, RecordsAfter, Conclude;
      ghost var before := log;
      var issues := Gates.ValidateReply(d.patterns, reply);
      var critique := ReviewReply(o);
      ghost var reviewed := if d.hasCritic then [Chat(Critic, [])] else [];
      SendOrEscalate(inp, o, cls, reply, false, issues + critique);
      GoesOn(d, inp, o, before, reviewed, Conclude(o, cls, reply, FinalDecision(d, o, cls, reply, false, issues + critique)));
    }

    /** The critic's blocking tags; advisory tags, its own failure tags included, do not block. */
    method ReviewReply(o: Oracle) returns (issues: seq<string>)
      modifies this
      ensures issues == CriticIssues(d, o)
      ensures log == old(log) + if d.hasCritic then [Chat(Critic, [])] else []
    {
      if !d.hasCritic {
        return [];
      }
      log := log + [Chat(Critic, [])];
      if o.verdict.pass {
        return [];
      }
      var tags := o.verdict.issues;
      var blockers: seq<string> := [];
      var i := 0;
      while i < |tags|
        invariant 0 <= i <= |tags|
        invariant blockers == Blockers(tags[..i])
      {
        assert tags[..i + 1][..i] == tags[..i];
        if BlockerTag(tags[i]) {
          blockers := blockers + ["critic:" + tags[i]];
        }
        i := i + 1;
      }
      assert tags[..i] == tags;
      if |blockers| == 0 {
        return [];
      }
      return ["critic_rejected"] + blockers;
    }

    /** The last toggle read, the final decision, and the note or the escalation. */
    method SendOrEscalate(inp: Input, o: Oracle, cls: Classification, reply: Reply, qualifier: bool, issues: seq<string>)
      requires Ready(inp, o)
      modifies this, memory
      ensures Ran(inp, o, Conclude(o, cls, reply, FinalDecision(d, o, cls, reply, qualifier, issues)))
    {
      hide Gates.Decide, Gates.DecideQualifier, CloseLog, Closed;
      ghost var before := log;
      var last := o.toggle(2);
      log := log + [ToggleRead(last)];
      var final := if qualifier then Gates.DecideQualifier(d.patterns, reply, last, d.thresholds.generatorMin)
                   else Gates.Decide(d.patterns, cls, reply, issues, last, d.thresholds);
      ghost var e := Conclude(o, cls, reply, final).ending;
      if !final.autoSend {
        HandOver(inp, o, Handed(final, cls, Some(reply), true));
      } else {
        var accepted := o.postAccepted;
        log := log + [NotePosted(inp.turn.key, inp.conv.rawID, reply.body, inp.now, accepted)];
        if !accepted {
          RecordEscalation(inp, Decision(false, "post_note_failed", []), cls, Some(reply));
          CloseTurn(inp, o, cls, Some(reply), false);
        } else {
          CloseTurn(inp, o, cls, Some(reply), true);
        }
        assert log == (before + [ToggleRead(last)]) + EndingLog(d, inp, o, e);
      }
      EndsAs(d, inp, o, before, [ToggleRead(last)], e);
    }

    method StoreReply(inp: Input, reply: Reply)
      modifies this
      ensures log == old(log) + Stored(d, inp, reply)
    {
      if d.hasReplies {
        log := log + [ReplyStored(inp.turn.lastPostID, reply)];
      }
    }

    /** Record the escalation, then close the turn or only complete the claim. */
    method HandOver(inp: Input, o: Oracle, e: Ending)
      requires Ready(inp, o) && e.Handed?
      modifies this, memory
      ensures log == old(log) + EndingLog(d, inp, o, e)
      ensures memory.records == RecordsAfter(d, o, old(memory.records), ClosingOf(inp, e))
    {
      hide CloseLog, Closed;
      RecordEscalation(inp, e.decision, e.cls, e.attached);
      if e.remembered {
        CloseTurn(inp, o, e.cls, e.attached, false);
      } else {
        CompleteClaim(inp);
      }
    }

    method RecordEscalation(inp: Input, decision: Decision, cls: Classification, reply: Option<Reply>)
      modifies this
      ensures log == old(log) + [EscalationEvent(inp, decision, cls, reply)]
    {
      log := log + [EscalationRecorded(inp.turn.key, inp.turn.lastPostID, decision, cls, reply)];
    }

    method CompleteClaim(inp: Input)
      modifies this
      ensures log == old(log) + [Completed(inp.turn.key, inp.turn.lastPostID)]
    {
      log := log + [Completed(inp.turn.key, inp.turn.lastPostID)];
    }

    /** Write the turn to memory, calling the summarizer when the thread overflows, then complete
        the claim. */
    method CloseTurn(inp: Input, o: Oracle, cls: Classification, reply: Option<Reply>, sent: bool)
      requires Ready(inp, o)
      modifies this, memory
      ensures log == old(log) + CloseLog(d, inp, o, Closing(inp, cls, reply, sent))
      ensures memory.records == RecordsAfter(d, o, old(memory.records), Some(Closing(inp, cls, reply, sent)))
    {
      hide Closed;
      var c := Closing(inp, cls, reply, sent);
      var s := SummarizerOf(d, o);
      var found := memory.Get(inp.turn.key);
      if d.hasSummarizer && Overflows(d.limits, Extended(found.thread, c)) {
        log := log + [Chat(Summarizing, [])];
      }
      memory.Update(inp.turn.key, r => Closed(d.limits, r, c, s));
      log := log + [MemoryClosed(found, c, s)];
      CompleteClaim(inp);
    }
  }

  lemma GateOneNeedsToggle(cls: Classification, enabled: bool, min: real)
    ensures Gates.PreGenerate(cls, enabled, min).autoSend ==> enabled
  {
  }
}
