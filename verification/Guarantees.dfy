/** What every run of the orchestrator guarantees, whatever its oracles answer. */
module Guarantees {
  import opened Domain
  import opened Trace
  import opened Memory
  import opened Orchestrator
  import Agent
  import Gates

  // ----- the shape of a run -----

  /** Events a run's body may hold: it decides, but writes nothing a human or guest sees. */
  predicate BodyEvent(e: Event) {
    e.ToggleRead? || e.MemoryRead? || CostlyChat(e) || e.GuestyCalled? || e.ClassificationStored? || e.ReplyStored?
  }

  /** A toggle read as off is the last thing a body does before handing over; a post directly
      follows a toggle read as on. */
  ghost predicate Disciplined(t: RunTrace) {
    && (forall i :: 0 <= i < |t.body| ==> BodyEvent(t.body[i]))
    && (forall i :: 0 <= i < |t.body| && t.body[i] == ToggleRead(false) ==> i == |t.body| - 1 && t.ending.Handed?)
    && (t.ending.Posted? ==> t.body != [] && t.body[|t.body| - 1] == ToggleRead(true))
  }

  /** A stretch of body events in which the toggle is never seen off. */
  ghost predicate Enabled(prefix: seq<Event>) {
    forall i :: 0 <= i < |prefix| ==> BodyEvent(prefix[i]) && prefix[i] != ToggleRead(false)
  }

  lemma ThenIsDisciplined(prefix: seq<Event>, t: RunTrace)
    requires Enabled(prefix) && Disciplined(t)
    ensures Disciplined(Then(prefix, t))
  {
  }

  lemma ConcludeIsDisciplined(d: Deps, o: Oracle, cls: Classification, reply: Reply, qualifier: bool, issues: seq<string>)
    ensures Disciplined(Conclude(o, cls, reply, FinalDecision(d, o, cls, reply, qualifier, issues)))
  {
  }

  lemma GenerationIsEnabled(d: Deps, inp: Input, o: Oracle)
    ensures Enabled(Generated(d, inp, o).events)
  {
    hide Agent.Generation;
    Agent.GenerationIsGrounded(d.wire, o.script, inp.listingID, d.maxTurns);
    var events := Generated(d, inp, o).events;
    forall i | 0 <= i < |events| ensures BodyEvent(events[i]) && events[i] != ToggleRead(false) {
      assert Agent.QuietEvent(events[i]);
    }
  }

  lemma ComposeIsDisciplined(d: Deps, inp: Input, o: Oracle, cls: Classification)
    ensures Disciplined(Compose(d, inp, o, cls))
  {
    hide Agent.Generation, Conclude;
    var gen := Generated(d, inp, o);
    GenerationIsEnabled(d, inp, o);
    match gen.reply {
      case None =>
        ThenIsDisciplined(gen.events, RunTrace([], Escalate("generator_failed", cls, false)));
      case Some(reply) =>
        var issues := GateIssues(d, o, reply);
        var t := Conclude(o, cls, reply, FinalDecision(d, o, cls, reply, false, issues));
        ConcludeIsDisciplined(d, o, cls, reply, false, issues);
        ThenIsDisciplined(if d.hasCritic then [Chat(Critic, [])] else [], t);
        ThenIsDisciplined(Stored(d, inp, reply), GateAndSend(d, o, cls, reply));
        ThenIsDisciplined(gen.events, Then(Stored(d, inp, reply), GateAndSend(d, o, cls, reply)));
    }
  }

  lemma QualifyIsDisciplined(d: Deps, inp: Input, o: Oracle, cls: Classification)
    ensures Disciplined(Qualify(d, inp, o, cls))
  {
    hide Conclude, FinalDecision;
    if o.toggle(1) && o.qualify.Some? {
      var reply := o.qualify.value;
      var t := Conclude(o, cls, reply, FinalDecision(d, o, cls, reply, true, []));
      ConcludeIsDisciplined(d, o, cls, reply, true, []);
      ThenIsDisciplined(Stored(d, inp, reply), t);
      ThenIsDisciplined([ToggleRead(true), Chat(Qualifier, [])], Then(Stored(d, inp, reply), t));
    }
  }

  lemma RouteIsDisciplined(d: Deps, inp: Input, o: Oracle, cls: Classification)
    ensures Disciplined(Route(d, inp, o, cls))
  {
    hide Qualify, Compose;
    if cls.primary == X1 && d.hasQualifier {
      QualifyIsDisciplined(d, inp, o, cls);
    } else {
      ComposeIsDisciplined(d, inp, o, cls);
      ThenIsDisciplined([ToggleRead(true)], Compose(d, inp, o, cls));
    }
  }

  lemma AfterPriorIsDisciplined(d: Deps, inp: Input, o: Oracle)
    ensures Disciplined(AfterPrior(d, inp, o))
  {
    hide Route, AcceptedOffer, Gates.EnforcePriority;
    if o.classify.Some? {
      var raw := o.classify.value;
      var cls := Gates.EnforcePriority(raw);
      RouteIsDisciplined(d, inp, o, cls);
      ThenIsDisciplined([ClassificationStored(inp.turn.lastPostID, raw)], Route(d, inp, o, cls));
      ThenIsDisciplined([Chat(Classifier, [])], Then([ClassificationStored(inp.turn.lastPostID, raw)], Route(d, inp, o, cls)));
    }
  }

  /** Every run is disciplined and, unless an injection was found, starts by reading the toggle. */
  lemma RunIsDisciplined(d: Deps, inp: Input, o: Oracle)
    ensures Disciplined(Run(d, inp, o))
    ensures Run(d, inp, o).body == [] ==> Run(d, inp, o).ending.Handed?
    ensures Run(d, inp, o).body != [] ==> Run(d, inp, o).body[0].ToggleRead?
  {
    hide AfterPrior, FirstInjection;
    AfterPriorIsDisciplined(d, inp, o);
    ThenIsDisciplined([ToggleRead(true), MemoryRead(inp.turn.key, o.prior)], AfterPrior(d, inp, o));
  }

  // ----- exactly one outcome -----

  predicate IsEscalation(e: Event) {
    e.EscalationRecorded?
  }

  predicate IsDelivered(e: Event) {
    e.NotePosted? && e.ok
  }

  predicate IsPost(e: Event) {
    e.NotePosted?
  }

  predicate IsCompletion(e: Event) {
    e.Completed?
  }

  /** The tail every closed turn writes: it neither posts nor escalates, and completes once. */
  lemma CloseCounts(d: Deps, inp: Input, o: Oracle, c: Closing)
    ensures
      var log := CloseLog(d, inp, o, c);
      && Count(log, IsEscalation) == 0 && Count(log, IsDelivered) == 0 && Count(log, IsPost) == 0
      && Count(log, IsCompletion) == 1
  {
    hide Count, Overflows, Extended;
    var done := Completed(inp.turn.key, inp.turn.lastPostID);
    var closed := MemoryClosed(o.atClose, c, SummarizerOf(d, o));
    HeadTailCounts(done, []);
    assert [done] + [] == [done];
    HeadTailCounts(closed, [done]);
    HeadTailCounts(Chat(Summarizing, []), [closed, done]);
    assert [closed] + [done] == [closed, done] && [] + [closed, done] == [closed, done];
  }

  /** One recorded escalation, or one delivered note, by the kind of ending. */
  lemma EndingCounts(d: Deps, inp: Input, o: Oracle, e: Ending)
    ensures
      var log := EndingLog(d, inp, o, e);
      var delivered := e.Posted? && e.accepted;
      && Count(log, IsEscalation) == (if delivered then 0 else 1)
      && Count(log, IsDelivered) == (if delivered then 1 else 0)
      && Count(log, IsPost) == (if e.Posted? then 1 else 0)
      && Count(log, IsCompletion) == 1
      && log[|log| - 1] == Completed(inp.turn.key, inp.turn.lastPostID)
  {
    hide Count;
    match e {
      case Handed(decision, cls, reply, remembered) =>
        var c := Closing(inp, cls, reply, false);
        var tail := if remembered then CloseLog(d, inp, o, c) else [Completed(inp.turn.key, inp.turn.lastPostID)];
        CloseCounts(d, inp, o, c);
        HeadTailCounts(EscalationEvent(inp, decision, cls, reply), tail);
        HeadTailCounts(tail[|tail| - 1], []);
        assert [tail[|tail| - 1]] + [] == [Completed(inp.turn.key, inp.turn.lastPostID)];
      case Posted(cls, reply, accepted) =>
        var c := Closing(inp, cls, Some(reply), accepted);
        CloseCounts(d, inp, o, c);
        var escalation := EscalationEvent(inp, Decision(false, "post_note_failed", []), cls, Some(reply));
        HeadTailCounts(escalation, CloseLog(d, inp, o, c));
        HeadTailCounts(NotePosted(inp.turn.key, inp.conv.rawID, reply.body, inp.now, accepted),
                       if accepted then CloseLog(d, inp, o, c) else [escalation] + CloseLog(d, inp, o, c));
    }
  }

  lemma HeadTailCounts(head: Event, tail: seq<Event>)
    ensures Count([head] + tail, IsEscalation) == Count(tail, IsEscalation) + (if IsEscalation(head) then 1 else 0)
    ensures Count([head] + tail, IsDelivered) == Count(tail, IsDelivered) + (if IsDelivered(head) then 1 else 0)
    ensures Count([head] + tail, IsPost) == Count(tail, IsPost) + (if IsPost(head) then 1 else 0)
    ensures Count([head] + tail, IsCompletion) == Count(tail, IsCompletion) + (if IsCompletion(head) then 1 else 0)
    ensures Count([], IsEscalation) == Count([], IsDelivered) == Count([], IsPost) == Count([], IsCompletion) == 0
  {
    CountConcat([head], tail, IsEscalation);
    CountConcat([head], tail, IsDelivered);
    CountConcat([head], tail, IsPost);
    CountConcat([head], tail, IsCompletion);
    CountOne(head, IsEscalation);
    CountOne(head, IsDelivered);
    CountOne(head, IsPost);
    CountOne(head, IsCompletion);
  }

  /** Every run ends with one recorded escalation and nothing delivered, or with one delivered
      note and no escalation; it tries to post at most once and completes its claim once, last. */
  lemma ExactlyOneOutcome(d: Deps, inp: Input, o: Oracle)
    ensures
      var log := RunLog(d, inp, o);
      && Count(log, IsEscalation) + Count(log, IsDelivered) == 1
      && Count(log, IsPost) <= 1
      && Count(log, IsCompletion) == 1
      && log[|log| - 1] == Completed(inp.turn.key, inp.turn.lastPostID)
  {
    hide Run, EndingLog;
    RunIsDisciplined(d, inp, o);
    var t := Run(d, inp, o);
    EndingCounts(d, inp, o, t.ending);
    var end := EndingLog(d, inp, o, t.ending);
    forall p: Event -> bool | p in {IsEscalation, IsDelivered, IsPost, IsCompletion}
      ensures Count(t.body + end, p) == Count(end, p)
    {
      CountConcat(t.body, end, p);
      CountNone(t.body, p);
    }
    assert end != [] by {
      assert end == [] ==> Count(end, IsCompletion) == 0;
    }
  }

  // ----- what a posted note implies -----

  /** The turn gets past the injection scan, the kill-switch and the commitment scan, and is
      classified. */
  ghost predicate Classified(d: Deps, inp: Input, o: Oracle) {
    && FirstInjection(d.injections, inp.turn.messages).None?
    && o.toggle(0)
    && AcceptedOffer(d, inp, o).None?
    && o.classify.Some?
  }

  ghost predicate QualifierPosts(d: Deps, o: Oracle, cls: Classification) {
    && cls.primary == X1 && d.hasQualifier
    && !Saturated(o.prior.entities)
    && o.toggle(1)
    && o.qualify.Some?
    && Gates.QualifierSendable(d.patterns, o.qualify.value, o.toggle(2), d.thresholds.generatorMin)
  }

  ghost predicate GeneratorPosts(d: Deps, inp: Input, o: Oracle, cls: Classification) {
    && !(cls.primary == X1 && d.hasQualifier)
    && o.toggle(1)
    && Generated(d, inp, o).reply.Some?
    && var reply := Generated(d, inp, o).reply.value;
       Gates.Sendable(d.patterns, cls, reply, GateIssues(d, o, reply), o.toggle(2), d.thresholds)
  }

  /** A note is posted exactly when one of the two send paths has all its conditions. */
  lemma PostsIff(d: Deps, inp: Input, o: Oracle)
    ensures Run(d, inp, o).ending.Posted? <==>
            && Classified(d, inp, o)
            && var cls := Gates.EnforcePriority(o.classify.value);
               QualifierPosts(d, o, cls) || GeneratorPosts(d, inp, o, cls)
  {
    hide FirstInjection, AcceptedOffer, Generated, GateIssues, Gates.QualifierIssues, Gates.EnforcePriority;
    if Classified(d, inp, o) {
      var cls := Gates.EnforcePriority(o.classify.value);
      RoutePostsIff(d, inp, o, cls);
    }
  }

  lemma RoutePostsIff(d: Deps, inp: Input, o: Oracle, cls: Classification)
    ensures Route(d, inp, o, cls).ending.Posted? <==> QualifierPosts(d, o, cls) || GeneratorPosts(d, inp, o, cls)
  {
    hide Generated, GateIssues;
    if cls.primary == X1 && d.hasQualifier {
      if o.qualify.Some? {
        Gates.DecideQualifierIff(d.patterns, o.qualify.value, o.toggle(2), d.thresholds.generatorMin);
      }
    } else {
      var gen := Generated(d, inp, o);
      if gen.reply.Some? {
        var reply := gen.reply.value;
        Gates.DecideIff(d.patterns, cls, reply, GateIssues(d, o, reply), o.toggle(2), d.thresholds);
      }
    }
  }

  /** The turn is handed over without being remembered. */
  predicate Forgotten(t: RunTrace) {
    t.ending.Handed? && !t.ending.remembered
  }

  ghost predicate ModelGivesUp(d: Deps, inp: Input, o: Oracle, cls: Classification) {
    if cls.primary == X1 && d.hasQualifier then !Saturated(o.prior.entities) && o.toggle(1) && o.qualify.None?
    else Gates.PreGenerate(cls, o.toggle(1), d.thresholds.classifierMin).autoSend && Generated(d, inp, o).reply.None?
  }

  /** A turn leaves no trace in memory exactly when an injection was found or the classifier, the
      qualifier or the generator failed on it. */
  lemma ForgottenIff(d: Deps, inp: Input, o: Oracle)
    ensures Forgotten(Run(d, inp, o)) <==>
            || FirstInjection(d.injections, inp.turn.messages).Some?
            || (&& o.toggle(0)
                && AcceptedOffer(d, inp, o).None?
                && (o.classify.None? || ModelGivesUp(d, inp, o, Gates.EnforcePriority(o.classify.value))))
  {
    hide FirstInjection, AcceptedOffer, Generated, GateIssues, Gates.EnforcePriority, Route, ModelGivesUp;
    if o.classify.Some? {
      RouteForgetsIff(d, inp, o, Gates.EnforcePriority(o.classify.value));
    }
  }

  lemma RouteForgetsIff(d: Deps, inp: Input, o: Oracle, cls: Classification)
    ensures Forgotten(Route(d, inp, o, cls)) <==> ModelGivesUp(d, inp, o, cls)
  {
    hide Generated, GateIssues, Gates.Decide, Gates.DecideQualifier, Gates.PreGenerate;
  }

  lemma {:induction false} BlockersEmptyIff(tags: seq<string>)
    ensures Blockers(tags) == [] <==> forall i :: 0 <= i < |tags| ==> !BlockerTag(tags[i])
  {
    hide BlockerTag;
    if tags != [] {
      var init, last := tags[..|tags| - 1], tags[|tags| - 1];
      BlockersEmptyIff(init);
      assert tags == init + [last];
    }
  }

  /** The critic stands in the way exactly when it fails the reply with a blocking tag; a critic
      that could not be reached reports other tags and does not block. */
  lemma CriticBlocksIff(d: Deps, o: Oracle)
    ensures CriticIssues(d, o) != [] <==>
            && d.hasCritic && !o.verdict.pass
            && exists i :: 0 <= i < |o.verdict.issues| && BlockerTag(o.verdict.issues[i])
  {
    BlockersEmptyIff(o.verdict.issues);
  }

  /** No note is ever posted for a turn whose raw classification, primary or secondary, names a
      code that needs a human. */
  lemma PostedTurnNeedsNoHuman(d: Deps, inp: Input, o: Oracle)
    requires Run(d, inp, o).ending.Posted?
    ensures o.classify.Some?
    ensures forall code :: Gates.AlwaysEscalates(code) ==> !Gates.Mentions(o.classify.value, code)
  {
    hide Run, Gates.EnforcePriority;
    PostsIff(d, inp, o);
    Gates.PriorityExposesEscalation(o.classify.value);
  }

  lemma SuccessIsAudited(used: seq<ToolCall>, requests: seq<ToolRequest>, expected: string, events: seq<Event>)
    requires Agent.AuditedReply(used, requests, expected, events)
    ensures Gates.UsedSuccessfully(used, "check_availability") ==>
            exists e :: e in events && Agent.AvailabilityConfirmed(e, expected)
    ensures Gates.UsedSuccessfully(used, "hold_reservation") ==>
            exists e :: e in events && Agent.HoldConfirmed(e, expected)
  {
    if Gates.UsedSuccessfully(used, "check_availability") {
      var i :| 0 <= i < |used| && used[i].name == "check_availability" && used[i].error == "";
      assert Agent.Audits(used[i], requests[i], expected, events);
    }
    if Gates.UsedSuccessfully(used, "hold_reservation") {
      var i :| 0 <= i < |used| && used[i].name == "hold_reservation" && used[i].error == "";
      assert Agent.Audits(used[i], requests[i], expected, events);
    }
  }

  lemma GeneratorPostIsGrounded(d: Deps, inp: Input, o: Oracle, cls: Classification)
    requires GeneratorPosts(d, inp, o, cls)
    ensures
      var reply, events := Generated(d, inp, o).reply.value, Generated(d, inp, o).events;
      && CriticIssues(d, o) == []
      && (reply.sellCertainty ==> exists e :: e in events && Agent.AvailabilityConfirmed(e, inp.listingID))
      && (d.patterns.holdPromise(reply.body) ==> exists e :: e in events && Agent.HoldConfirmed(e, inp.listingID))
  {
    hide Agent.Generation, CriticIssues, Gates.UsedSuccessfully, Agent.AvailabilityConfirmed, Agent.HoldConfirmed, Agent.AuditedReply;
    var gen := Generated(d, inp, o);
    var reply := gen.reply.value;
    Agent.GenerationIsGrounded(d.wire, o.script, inp.listingID, d.maxTurns);
    SuccessIsAudited(reply.usedTools, Agent.Calls(Agent.LastTranscript(gen.events)), inp.listingID, gen.events);
    assert Gates.ReplyIssues(d.patterns, reply) == [] by {
      hide Gates.ReplyIssues;
      assert GateIssues(d, o, reply) == [];
    }
    Gates.CleanReplyIff(d.patterns, reply);
  }

  /** What a posting run emitted: its classification is the corrected one and, on the generator
      path, its reply the generated one, with the generator's effects in its body. */
  lemma PostedReplyIsGenerated(d: Deps, inp: Input, o: Oracle)
    requires Run(d, inp, o).ending.Posted?
    ensures
      var t := Run(d, inp, o);
      && o.classify.Some? && t.ending.cls == Gates.EnforcePriority(o.classify.value)
      && (!(t.ending.cls.primary == X1 && d.hasQualifier) ==>
            && GeneratorPosts(d, inp, o, t.ending.cls)
            && Generated(d, inp, o).reply == Some(t.ending.reply)
            && forall e :: e in Generated(d, inp, o).events ==> e in t.body)
  {
    hide FirstInjection, AcceptedOffer, Gates.EnforcePriority, Agent.Generation, Gates.PreGenerate, Gates.Decide, Gates.DecideQualifier;
    PostsIff(d, inp, o);
    hide Gates.Sendable, GateIssues, Gates.QualifierSendable;
  }

  /** On the generator path a posted certainty or hold promise is backed by a platform call that
      really succeeded during this run, for this turn's listing if it has one. */
  lemma PostedPromisesAreGrounded(d: Deps, inp: Input, o: Oracle)
    ensures
      match Run(d, inp, o).ending
      case Handed(_, _, _, _) => true
      case Posted(cls, reply, _) =>
        !(cls.primary == X1 && d.hasQualifier) ==>
          var events := Generated(d, inp, o).events;
          && Generated(d, inp, o).reply == Some(reply)
          && CriticIssues(d, o) == []
          && (reply.sellCertainty ==> exists e :: e in events && Agent.AvailabilityConfirmed(e, inp.listingID))
          && (d.patterns.holdPromise(reply.body) ==> exists e :: e in events && Agent.HoldConfirmed(e, inp.listingID))
          && (forall e :: e in events ==> e in RunLog(d, inp, o))
  {
    if Run(d, inp, o).ending.Posted? {
      PostedReplyIsGenerated(d, inp, o);
      hide Run, EndingLog, GeneratorPosts, CriticIssues, Agent.Generation, Agent.AvailabilityConfirmed, Agent.HoldConfirmed;
      var cls := Run(d, inp, o).ending.cls;
      if !(cls.primary == X1 && d.hasQualifier) {
        GeneratorPostIsGrounded(d, inp, o, cls);
      }
    }
  }

  predicate IsSummary(e: Event) {
    e.Chat? && e.stage.Summarizing?
  }

  lemma KillSwitchedLog(d: Deps, inp: Input, o: Oracle)
    requires FirstInjection(d.injections, inp.turn.messages).None? && !o.toggle(0)
    ensures RunLog(d, inp, o) ==
            [ToggleRead(false), EscalationEvent(inp, Decision(false, "auto_disabled", []), NO_CLASSIFICATION, None)]
            + CloseLog(d, inp, o, Closing(inp, NO_CLASSIFICATION, None, false))
  {
    hide FirstInjection, CloseLog;
  }

  lemma CloseLogCalls(d: Deps, inp: Input, o: Oracle, c: Closing)
    ensures
      var log := CloseLog(d, inp, o, c);
      && (forall e :: e in log ==> !CostlyChat(e) && !e.NotePosted?)
      && Count(log, IsSummary) == (if d.hasSummarizer && Overflows(d.limits, Extended(o.atClose.thread, c)) then 1 else 0)
      && MemoryClosed(o.atClose, c, SummarizerOf(d, o)) in log
  {
    hide Count, Overflows, Extended;
    var end := [MemoryClosed(o.atClose, c, SummarizerOf(d, o)), Completed(inp.turn.key, inp.turn.lastPostID)];
    CountNone(end, IsSummary);
    assert end[0] in end;
    if d.hasSummarizer && Overflows(d.limits, Extended(o.atClose.thread, c)) {
      CountConcat([Chat(Summarizing, [])], end, IsSummary);
      CountOne(Chat(Summarizing, []), IsSummary);
    } else {
      assert [] + end == end;
    }
  }

  /** With the toggle off at the start, a clean turn is escalated for it and remembered, makes no
      costly call and no post, and asks for a memory summary exactly when a summarizer is wired
      and the thread overflows. */
  lemma KillSwitchedTurn(d: Deps, inp: Input, o: Oracle)
    requires FirstInjection(d.injections, inp.turn.messages).None? && !o.toggle(0)
    ensures
      var log, c := RunLog(d, inp, o), Closing(inp, NO_CLASSIFICATION, None, false);
      && (forall e :: e in log ==> !CostlyChat(e) && !e.NotePosted?)
      && EscalationEvent(inp, Decision(false, "auto_disabled", []), NO_CLASSIFICATION, None) in log
      && MemoryClosed(o.atClose, c, SummarizerOf(d, o)) in log
      && Count(log, IsSummary) == (if d.hasSummarizer && Overflows(d.limits, Extended(o.atClose.thread, c)) then 1 else 0)
  {
    var c := Closing(inp, NO_CLASSIFICATION, None, false);
    KillSwitchedLog(d, inp, o);
    CloseLogCalls(d, inp, o, c);
    hide RunLog, CloseLog, Count, Overflows, Extended;
    var start := [ToggleRead(false), EscalationEvent(inp, Decision(false, "auto_disabled", []), NO_CLASSIFICATION, None)];
    assert start[1] in start;
    CountNone(start, IsSummary);
    CountConcat(start, CloseLog(d, inp, o, c), IsSummary);
  }

  // ----- the same facts read off the log, suffix by suffix -----

  /** What the kill-switch is there to stop. */
  predicate Action(e: Event) {
    e.NotePosted? || CostlyChat(e)
  }

  /** Nothing costly or visible happens once the toggle has been read as off. */
  ghost predicate Guarded(rest: seq<Event>) {
    forall i, j :: 0 <= i < j < |rest| && rest[i] == ToggleRead(false) ==> !Action(rest[j])
  }

  /** Nothing costly or visible happens before the next toggle read. */
  ghost predicate Calm(rest: seq<Event>) {
    forall j :: 0 <= j < |rest| && Action(rest[j]) ==> ReadsBefore(rest, j)
  }

  ghost predicate ReadsBefore(rest: seq<Event>, j: nat) {
    exists i :: 0 <= i < j && i < |rest| && rest[i].ToggleRead?
  }

  ghost predicate PostsOnce(rest: seq<Event>) {
    forall i, j :: 0 <= i < j < |rest| ==> !(rest[i].NotePosted? && rest[j].NotePosted?)
  }

  /** A turn is written to memory as sent only after its note, with that very body and time, was
      accepted. */
  ghost predicate SentIsBacked(log: seq<Event>, inp: Input) {
    forall i :: 0 <= i < |log| && log[i].MemoryClosed? ==>
      && log[i].closing.input == inp
      && (log[i].closing.sent ==> log[i].closing.reply.Some? && AcceptedBefore(log, i, inp.turn.key, log[i].closing.reply.value.body, inp.now))
  }

  ghost predicate AcceptedBefore(log: seq<Event>, i: nat, key: Key, body: string, at: int) {
    exists j :: 0 <= j < i && j < |log| && Accepts(log[j], key, body, at)
  }

  predicate Accepts(e: Event, key: Key, body: string, at: int) {
    e.NotePosted? && e.ok && e.key == key && e.body == body && e.at == at
  }

  lemma EndingActions(d: Deps, inp: Input, o: Oracle, e: Ending)
    ensures
      var log := EndingLog(d, inp, o, e);
      && (forall i :: 0 <= i < |log| ==> !log[i].ToggleRead? && !CostlyChat(log[i]))
      && (forall i :: 0 <= i < |log| && log[i].NotePosted? ==> i == 0 && e.Posted?)
      && SentIsBacked(log, inp)
  {
    var log := EndingLog(d, inp, o, e);
    if e.Posted? && e.accepted {
      assert Accepts(log[0], inp.turn.key, e.reply.body, inp.now);
    }
  }

  lemma RunLogIsGuarded(d: Deps, inp: Input, o: Oracle)
    ensures Guarded(RunLog(d, inp, o)) && Calm(RunLog(d, inp, o)) && PostsOnce(RunLog(d, inp, o))
    ensures SentIsBacked(RunLog(d, inp, o), inp)
  {
    hide Run, EndingLog;
    var t := Run(d, inp, o);
    var log := RunLog(d, inp, o);
    RunIsDisciplined(d, inp, o);
    EndingActions(d, inp, o, t.ending);
    forall j | 0 <= j < |log| && Action(log[j]) ensures ReadsBefore(log, j) {
      if t.body != [] {
        assert log[0] == t.body[0];
      }
    }
    var n := |t.body|;
    forall i | 0 <= i < |log| && log[i].MemoryClosed?
      ensures log[i].closing.input == inp
      ensures log[i].closing.sent ==> log[i].closing.reply.Some? && AcceptedBefore(log, i, inp.turn.key, log[i].closing.reply.value.body, inp.now)
    {
      var end := EndingLog(d, inp, o, t.ending);
      assert log[i] == end[i - n];
      if log[i].closing.sent {
        var body := log[i].closing.reply.value.body;
        var j :| 0 <= j < i - n && j < |end| && Accepts(end[j], inp.turn.key, body, inp.now);
        assert log[n + j] == end[j];
      }
    }
  }
}
