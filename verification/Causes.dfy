/** Why a run ends the way it does, read off its inputs: each exit, each condition for a note and
    each effect of the ending is stated without the functions that compute it. */
module Causes {
  import opened Domain
  import opened Trace
  import opened Memory
  import opened Orchestrator
  import opened Guarantees
  import Agent
  import Commitment
  import Gates
  import Normalize
  import PromptSafety
  import ThreadMerge

  // ----- injections -----

  /** Row j of the injection table matches message i of the turn. */
  predicate Hits(table: seq<PromptSafety.NamedPattern>, ms: seq<Message>, i: int, j: int) {
    0 <= i < |ms| && 0 <= j < |table| && ms[i].body != "" && table[j].matches(ms[i].body)
  }

  ghost predicate Injected(table: seq<PromptSafety.NamedPattern>, ms: seq<Message>) {
    exists i, j :: Hits(table, ms, i, j)
  }

  /** No earlier message is hit, and no earlier row hits this one. */
  ghost predicate FirstHit(table: seq<PromptSafety.NamedPattern>, ms: seq<Message>, i: int, j: int) {
    && Hits(table, ms, i, j)
    && (forall h :: h < j ==> !Hits(table, ms, i, h))
    && (forall g, h :: g < i ==> !Hits(table, ms, g, h))
  }

  lemma HeadIsHit(table: seq<PromptSafety.NamedPattern>, ms: seq<Message>)
    requires ms != []
    ensures
      var hit := PromptSafety.DetectWithPattern(table, ms[0].body);
      if hit.Some? then exists j :: FirstHit(table, ms, 0, j) && hit.value == table[j].name
      else forall j :: !Hits(table, ms, 0, j)
  {
    PromptSafety.FirstRowIff(table, ms[0].body);
    hide PromptSafety.DetectWithPattern;
    if PromptSafety.DetectWithPattern(table, ms[0].body).Some? {
      var j :| 0 <= j < |table| && table[j].matches(ms[0].body)
               && PromptSafety.DetectWithPattern(table, ms[0].body).value == table[j].name
               && forall h :: 0 <= h < j ==> !table[h].matches(ms[0].body);
      assert FirstHit(table, ms, 0, j);
    }
  }

  lemma TailHits(table: seq<PromptSafety.NamedPattern>, ms: seq<Message>, i: int, j: int)
    requires ms != []
    ensures i > 0 ==> (Hits(table, ms, i, j) <==> Hits(table, ms[1..], i - 1, j))
  {
  }

  /** The scan finds something exactly when some row matches some message of the turn, and names the
      earliest matching row of the earliest matching message. */
  lemma {:induction false} InjectionIff(table: seq<PromptSafety.NamedPattern>, ms: seq<Message>)
    ensures FirstInjection(table, ms).Some? <==> Injected(table, ms)
    ensures FirstInjection(table, ms).Some? ==>
            exists i, j :: FirstHit(table, ms, i, j) && FirstInjection(table, ms).value == table[j].name
    decreases |ms|
  {
    if ms != [] {
      HeadIsHit(table, ms);
      hide PromptSafety.DetectWithPattern, Hits;
      var hit := PromptSafety.DetectWithPattern(table, ms[0].body);
      if hit.Some? {
        var j :| FirstHit(table, ms, 0, j) && hit.value == table[j].name;
        assert Hits(table, ms, 0, j);
      } else {
        InjectionIff(table, ms[1..]);
        InjectionInTail(table, ms);
        if FirstInjection(table, ms[1..]).Some? {
          var i, j :| FirstHit(table, ms[1..], i, j) && FirstInjection(table, ms[1..]).value == table[j].name;
          FirstHitInTail(table, ms, i, j);
        }
      }
    }
  }

  lemma InjectionInTail(table: seq<PromptSafety.NamedPattern>, ms: seq<Message>)
    requires ms != [] && forall j :: !Hits(table, ms, 0, j)
    ensures Injected(table, ms) <==> Injected(table, ms[1..])
  {
    NoHitsBelow(table, ms);
    NoHitsBelow(table, ms[1..]);
    hide Hits;
    if Injected(table, ms) {
      var i, j :| Hits(table, ms, i, j);
      TailHits(table, ms, i, j);
    }
    if Injected(table, ms[1..]) {
      var i, j :| Hits(table, ms[1..], i, j);
      TailHits(table, ms, i + 1, j);
    }
  }

  lemma FirstHitInTail(table: seq<PromptSafety.NamedPattern>, ms: seq<Message>, i: int, j: int)
    requires ms != [] && (forall h :: !Hits(table, ms, 0, h)) && FirstHit(table, ms[1..], i, j)
    ensures FirstHit(table, ms, i + 1, j)
  {
    NoHitsBelow(table, ms);
    NoHitsBelow(table, ms[1..]);
    hide Hits;
    var n := i + 1;
    TailHits(table, ms, n, j);
    forall h | h < j ensures !Hits(table, ms, n, h) {
      TailHits(table, ms, n, h);
    }
    forall g, h | g < n ensures !Hits(table, ms, g, h) {
      TailHits(table, ms, g, h);
    }
  }

  lemma NoHitsBelow(table: seq<PromptSafety.NamedPattern>, ms: seq<Message>)
    ensures forall i, j :: Hits(table, ms, i, j) ==> i >= 0
  {
  }

  /** An injected turn is handed over with the pattern's name, reaches no model and is not remembered. */
  lemma InjectedTurnIsHandedOver(d: Deps, inp: Input, o: Oracle)
    requires Injected(d.injections, inp.turn.messages)
    ensures exists i, j ::
              && FirstHit(d.injections, inp.turn.messages, i, j)
              && Run(d, inp, o) == RunTrace([], Handed(Decision(false, "prompt_injection_suspected", [d.injections[j].name]),
                                                       NO_CLASSIFICATION, None, false))
  {
    InjectionIff(d.injections, inp.turn.messages);
    hide FirstInjection, AfterPrior, Injected, FirstHit;
  }

  // ----- what the commitment scan reads -----

  /** The scan reads the last message of the turn against the remembered thread followed by the
      webhook's, each id once and as first seen, without the turn's own. */
  lemma ScanReads(d: Deps, inp: Input, o: Oracle)
    ensures
      var s, all := PriorScan(d, inp, o), o.prior.thread + inp.conv.thread;
      && s.lower == d.lower && s.replies == o.replies
      && s.guestBody == (if inp.turn.messages == [] then "" else inp.turn.messages[|inp.turn.messages| - 1].body)
      && ThreadMerge.Subsequence(s.thread, all) && ThreadMerge.DistinctIDs(s.thread)
      && ThreadMerge.PostIDs(s.thread) == ThreadMerge.PostIDs(all) - ThreadMerge.PostIDs(inp.turn.messages)
      && ThreadMerge.Unnamed(s.thread) == ThreadMerge.Unnamed(all)
  {
    ThreadMerge.FilteredIsSubsequence(o.prior.thread + inp.conv.thread, ThreadMerge.PostIDs(inp.turn.messages));
    ThreadMerge.FilteredKeepsEachOnce(o.prior.thread + inp.conv.thread, ThreadMerge.PostIDs(inp.turn.messages));
    hide ThreadMerge.Filtered, ThreadMerge.Subsequence, ThreadMerge.DistinctIDs, ThreadMerge.PostIDs, ThreadMerge.Unnamed;
  }

  ghost predicate OfferTakenOver(d: Deps, inp: Input, o: Oracle) {
    exists i :: Commitment.TakenOver(PriorScan(d, inp, o), i)
  }

  lemma AcceptedGuestSpoke(lower: char -> char, m: Message, guestBody: string)
    requires Commitment.Accepts(lower, m, guestBody)
    ensures guestBody != ""
  {
    assert Normalize.ComparableBody(lower, "") == "";
  }

  /** An offer goes to a human exactly when the scan must take one over, with the offer found as
      evidence. */
  lemma AcceptedOfferIff(d: Deps, inp: Input, o: Oracle)
    ensures AcceptedOffer(d, inp, o).Some? <==> OfferTakenOver(d, inp, o)
    ensures AcceptedOffer(d, inp, o).Some? ==>
            exists i :: Commitment.TakenOver(PriorScan(d, inp, o), i) && 0 <= i < |PriorScan(d, inp, o).thread|
                        && AcceptedOffer(d, inp, o) == Commitment.Detect(d.lower, PriorScan(d, inp, o).thread[i].body,
                                                                         PriorScan(d, inp, o).guestBody)
  {
    var s := PriorScan(d, inp, o);
    hide Commitment.Detect, Commitment.TakenOver, PriorThread, Commitment.Accepts, Commitment.WantsFinalization, Commitment.HoldRecorded;
    hide Commitment.HoldByBodyAlias;
    Commitment.CandidateInRange(s);
    if s.Candidate().Some? {
      var c := s.Candidate().value;
      Commitment.CandidateIs(s, c);
      Commitment.OffersIff(s, s.thread[c]);
      AcceptedGuestSpoke(s.lower, s.thread[c], s.guestBody);
    }
    forall i | Commitment.TakenOver(s, i) ensures s.Candidate() == Some(i) {
      TakenOverInRange(s, i);
      Commitment.CandidateIs(s, i);
    }
  }

  lemma TakenOverInRange(s: Commitment.Scan, i: int)
    requires Commitment.TakenOver(s, i)
    ensures 0 <= i < |s.thread|
  {
  }

  /** A turn whose prior thread holds an accepted offer, and none that any recorded hold backs, goes
      to a human before any model is asked. */
  lemma UnheldOfferIsHandedOver(d: Deps, inp: Input, o: Oracle, m: Message)
    requires !Injected(d.injections, inp.turn.messages) && o.toggle(0)
    requires m in PriorScan(d, inp, o).thread && Commitment.Accepts(PriorScan(d, inp, o).lower, m, PriorScan(d, inp, o).guestBody)
    requires forall x :: x in PriorScan(d, inp, o).thread && Commitment.Accepts(PriorScan(d, inp, o).lower, x, PriorScan(d, inp, o).guestBody) ==>
                           !Commitment.Backed(PriorScan(d, inp, o), x)
    ensures AcceptedOffer(d, inp, o).Some?
    ensures Run(d, inp, o) == RunTrace([ToggleRead(true), MemoryRead(inp.turn.key, o.prior)],
                                       Handoff(AcceptedOffer(d, inp, o).value))
  {
    hide PriorScan, Commitment.Accepts, Commitment.Backed, Commitment.TakenOver, FirstInjection, Injected, AcceptedOffer, Route;
    InjectionIff(d.injections, inp.turn.messages);
    UnbackedOfferIsTakenOver(PriorScan(d, inp, o), m);
    AcceptedOfferIff(d, inp, o);
  }

  lemma UnbackedOfferIsTakenOver(s: Commitment.Scan, m: Message)
    requires m in s.thread && Commitment.Accepts(s.lower, m, s.guestBody)
    requires forall x :: x in s.thread && Commitment.Accepts(s.lower, x, s.guestBody) ==> !Commitment.Backed(s, x)
    ensures exists i :: Commitment.TakenOver(s, i)
  {
    hide Commitment.Detect, Commitment.WantsFinalization, Commitment.HoldRecorded, Commitment.HoldByBodyAlias;
    hide Commitment.HoldUnder, Commitment.EchoesHold, Commitment.Accepts, Commitment.TakenOver;
    Commitment.CandidateInRange(s);
    var at :| 0 <= at < |s.thread| && s.thread[at] == m;
    Commitment.OffersIff(s, m);
    if s.NewestDecisive().Some? {
      var d := s.thread[s.NewestDecisive().value];
      Commitment.HeldIff(s, d);
      Commitment.OffersIff(s, d);
      assert d in s.thread;
    }
    assert s.Candidate().Some?;
    Commitment.CandidateIs(s, s.Candidate().value);
  }

  /** A commitment handover shows its evidence: the offer that occurs in a host message the scan takes
      over, and the guest's answer. */
  lemma HandoffShowsItsEvidence(d: Deps, inp: Input, o: Oracle)
    requires !Injected(d.injections, inp.turn.messages) && o.toggle(0) && OfferTakenOver(d, inp, o)
    ensures
      var s := PriorScan(d, inp, o);
      exists i, offer, reply ::
        && Commitment.TakenOver(s, i) && Run(d, inp, o).ending.Handed?
        && Run(d, inp, o).ending.decision
           == Decision(false, "commitment_needs_human", ["matched_offer=" + offer, "matched_reply=" + reply])
        && EvidenceFor(s, i, offer, reply)
  {
    InjectionIff(d.injections, inp.turn.messages);
    AcceptedOfferIff(d, inp, o);
    hide FirstInjection, AcceptedOffer, Route, Injected, Commitment.TakenOver, Commitment.Detect, PriorScan;
    var s, m := PriorScan(d, inp, o), AcceptedOffer(d, inp, o).value;
    var i :| Commitment.TakenOver(s, i) && 0 <= i < |s.thread|
             && AcceptedOffer(d, inp, o) == Commitment.Detect(d.lower, s.thread[i].body, s.guestBody);
    DetectionIsEvidence(d, inp, o, i, m);
    hide EvidenceFor;
    assert Run(d, inp, o).ending == Handoff(m);
  }

  ghost predicate EvidenceFor(s: Commitment.Scan, i: int, offer: string, reply: string) {
    var guest := Normalize.ComparableBody(s.lower, s.guestBody);
    && 0 <= i < |s.thread|
    && offer in Commitment.OFFER_PHRASES
    && PromptSafety.Contains(Normalize.ComparableBody(s.lower, s.thread[i].body), offer)
    && ((reply in Commitment.AFFIRMATIVE_PHRASES && PromptSafety.Contains(guest, reply)) || reply in Commitment.BARE_YES)
  }

  lemma DetectionIsEvidence(d: Deps, inp: Input, o: Oracle, i: int, m: Commitment.Match)
    requires 0 <= i < |PriorScan(d, inp, o).thread|
    requires Commitment.Detect(d.lower, PriorScan(d, inp, o).thread[i].body, PriorScan(d, inp, o).guestBody) == Some(m)
    ensures EvidenceFor(PriorScan(d, inp, o), i, m.offer, m.reply)
  {
    Commitment.DetectIff(d.lower, PriorScan(d, inp, o).thread[i].body, PriorScan(d, inp, o).guestBody);
    hide Commitment.Detect, PromptSafety.Contains, Normalize.ComparableBody, PriorThread, Commitment.Prompt, Commitment.Mentions;
    hide Commitment.SaysYes;
  }

  // ----- what it takes to post -----

  /** The turn is let through to a classification: no injection, toggle on, nothing to take over. */
  ghost predicate Reached(d: Deps, inp: Input, o: Oracle) {
    !Injected(d.injections, inp.turn.messages) && o.toggle(0) && !OfferTakenOver(d, inp, o) && o.classify.Some?
  }

  predicate OnQualifierPath(d: Deps, cls: Classification) {
    cls.primary == X1 && d.hasQualifier
  }

  /** The three facts a booking needs are known already. */
  predicate NothingToAsk(o: Oracle) {
    o.prior.entities.checkIn.Some? && o.prior.entities.checkOut.Some? && o.prior.entities.guestCount.Some?
  }

  /** Long enough, unhedged, no restricted content, and confident enough. */
  predicate FitToSend(d: Deps, reply: Reply, least: nat, most: nat) {
    && reply.abortReason == "" && least <= |reply.body| <= most && !d.patterns.hedges(reply.body)
    && reply.confidence >= d.thresholds.generatorMin && d.patterns.restricted(reply.body) == []
  }

  /** Every promise is backed by a tool call that succeeded. */
  ghost predicate KeepsPromises(d: Deps, reply: Reply) {
    && (reply.sellCertainty ==> Gates.Succeeded(reply.usedTools, "check_availability"))
    && (d.patterns.holdPromise(reply.body) ==> Gates.Succeeded(reply.usedTools, "hold_reservation"))
    && !d.patterns.channelPromise(reply.body)
  }

  ghost predicate CriticLetsPass(d: Deps, o: Oracle) {
    !d.hasCritic || o.verdict.pass
    || forall tag :: tag in o.verdict.issues ==> tag != "hedging" && tag != "off_topic" && tag != "critic_uncertain"
  }

  ghost predicate MayPost(d: Deps, inp: Input, o: Oracle, cls: Classification) {
    && o.toggle(1) && o.toggle(2)
    && if OnQualifierPath(d, cls) then
         !NothingToAsk(o) && o.qualify.Some? && FitToSend(d, o.qualify.value, 30, 280)
       else
         && !cls.riskFlag && cls.confidence >= d.thresholds.classifierMin
         && Gates.Rank(Y2) < Gates.Rank(cls.primary) < Gates.Rank(X1)
         && CriticLetsPass(d, o)
         && Generated(d, inp, o).reply.Some?
         && FitToSend(d, Generated(d, inp, o).reply.value, 60, 900) && KeepsPromises(d, Generated(d, inp, o).reply.value)
  }

  lemma CriticIff(d: Deps, o: Oracle)
    ensures CriticIssues(d, o) == [] <==> CriticLetsPass(d, o)
  {
    CriticBlocksIff(d, o);
    hide CriticIssues;
    var tags := o.verdict.issues;
    forall i | 0 <= i < |tags| && BlockerTag(tags[i])
      ensures exists tag :: tag in tags && (tag == "hedging" || tag == "off_topic" || tag == "critic_uncertain")
    {
      assert tags[i] in tags;
    }
    forall tag | tag in tags && (tag == "hedging" || tag == "off_topic" || tag == "critic_uncertain")
      ensures exists i :: 0 <= i < |tags| && BlockerTag(tags[i])
    {
      var i :| 0 <= i < |tags| && tags[i] == tag;
      assert BlockerTag(tags[i]);
    }
  }

  /** The critic's issues are its blocking tags, marked as its own and led by the rejection. */
  lemma {:induction false} BlockersIff(tags: seq<string>, tag: string)
    ensures "critic:" + tag in Blockers(tags)
            <==> tag in tags && (tag == "hedging" || tag == "off_topic" || tag == "critic_uncertain")
  {
    if tags != [] {
      var init, last := tags[..|tags| - 1], tags[|tags| - 1];
      BlockersIff(init, tag);
      assert tags == init + [last];
      assert ("critic:" + tag)[|"critic:"|..] == tag && ("critic:" + last)[|"critic:"|..] == last;
    }
  }

  lemma CriticIssuesName(d: Deps, o: Oracle, tag: string)
    ensures CriticIssues(d, o) != [] ==> CriticIssues(d, o)[0] == "critic_rejected"
    ensures "critic:" + tag in CriticIssues(d, o)
            <==> d.hasCritic && !o.verdict.pass && tag in o.verdict.issues
                 && (tag == "hedging" || tag == "off_topic" || tag == "critic_uncertain")
  {
    BlockersIff(o.verdict.issues, tag);
    assert ("critic:" + tag)[6] == ':' && "critic_rejected"[6] == '_';
    hide Blockers;
  }

  lemma GeneratorMayPost(d: Deps, inp: Input, o: Oracle, cls: Classification)
    requires !OnQualifierPath(d, cls)
    ensures GeneratorPosts(d, inp, o, cls) <==> MayPost(d, inp, o, cls)
  {
    Gates.SetsFollowRank(cls.primary);
    CriticIff(d, o);
    if Generated(d, inp, o).reply.Some? {
      var reply := Generated(d, inp, o).reply.value;
      Gates.CleanReplyIff(d.patterns, reply);
      Gates.SucceededIff(reply.usedTools, "check_availability");
      Gates.SucceededIff(reply.usedTools, "hold_reservation");
    }
    hide Generated, CriticIssues, CriticLetsPass, Gates.ReplyIssues, Gates.Rank, Gates.LowRisk, Gates.UsedSuccessfully, Gates.Succeeded;
  }

  lemma QualifierMayPost(d: Deps, inp: Input, o: Oracle, cls: Classification)
    requires OnQualifierPath(d, cls)
    ensures QualifierPosts(d, o, cls) <==> MayPost(d, inp, o, cls)
  {
    hide Generated;
  }

  /** A note is posted if and only if the turn is reached and one of the two paths lets its reply
      through, every condition spelled out. */
  lemma PostsExactlyWhen(d: Deps, inp: Input, o: Oracle)
    ensures Run(d, inp, o).ending.Posted?
            <==> Reached(d, inp, o) && MayPost(d, inp, o, Gates.EnforcePriority(o.classify.value))
  {
    PostsIff(d, inp, o);
    InjectionIff(d.injections, inp.turn.messages);
    AcceptedOfferIff(d, inp, o);
    hide Run, FirstInjection, AcceptedOffer, Injected, OfferTakenOver, MayPost, QualifierPosts, GeneratorPosts, Gates.EnforcePriority;
    if o.classify.Some? {
      var cls := Gates.EnforcePriority(o.classify.value);
      OnePathOnly(d, inp, o, cls);
      if OnQualifierPath(d, cls) {
        QualifierMayPost(d, inp, o, cls);
      } else {
        GeneratorMayPost(d, inp, o, cls);
      }
    }
  }

  lemma OnePathOnly(d: Deps, inp: Input, o: Oracle, cls: Classification)
    ensures QualifierPosts(d, o, cls) ==> OnQualifierPath(d, cls)
    ensures GeneratorPosts(d, inp, o, cls) ==> !OnQualifierPath(d, cls)
  {
    hide Generated;
  }

  /** No row of the injection table matches any message of a turn that is answered. */
  lemma AnsweredTurnIsClean(d: Deps, inp: Input, o: Oracle, i: int, j: int)
    requires Run(d, inp, o).ending.Posted?
    ensures !Hits(d.injections, inp.turn.messages, i, j)
  {
    hide Run, MayPost, OfferTakenOver, Hits;
    PostsExactlyWhen(d, inp, o);
  }

  /** A generated reply that is posted was the model's own final answer, given within its budget: at
      most maxTurns calls, the last one asking for no tool. */
  lemma PostedAnswerIsFinal(d: Deps, inp: Input, o: Oracle)
    requires Run(d, inp, o).ending.Posted? && !OnQualifierPath(d, Run(d, inp, o).ending.cls)
    ensures
      var chats := Count(Generated(d, inp, o).events, Agent.IsChat);
      && 0 < chats <= Agent.Budget(d.maxTurns)
      && o.script.chat(chats - 1).Says? && o.script.chat(chats - 1).calls == []
      && Agent.FinalAnswer(d.wire, o.script.chat(chats - 1).content, Some(Run(d, inp, o).ending.reply))
  {
    hide Run, Agent.Generation, Count, Gates.Sendable, GateIssues;
    PostedReplyIsGenerated(d, inp, o);
    Agent.GenerationEndsProperly(d.wire, o.script, inp.listingID, d.maxTurns);
    var cls := Run(d, inp, o).ending.cls;
    PostedIsNotAborted(d, inp, o, cls);
  }

  lemma PostedIsNotAborted(d: Deps, inp: Input, o: Oracle, cls: Classification)
    requires GeneratorPosts(d, inp, o, cls)
    ensures Generated(d, inp, o).reply.value.abortReason == ""
  {
    hide Generated, GateIssues;
  }

  // ----- what a handover names as its cause -----

  function Reason(e: Ending): string {
    if e.Handed? then e.decision.reason else ""
  }

  /** GATE 1 lets the generator start. */
  predicate MayGenerate(d: Deps, o: Oracle, cls: Classification) {
    && o.toggle(1) && !cls.riskFlag && Gates.Rank(Y2) < Gates.Rank(cls.primary) < Gates.Rank(X1)
    && cls.confidence >= d.thresholds.classifierMin
  }

  lemma CausesAreNoGateReasons(reason: string)
    requires Gates.GateReason(reason) || reason == ""
    ensures reason != "prompt_injection_suspected" && reason != "commitment_needs_human" && reason != "classifier_failed"
    ensures reason != "qualifier_saturated" && reason != "qualifier_failed" && reason != "generator_failed"
  {
  }

  /** Past the classifier: which failures end the run outside the gates. */
  ghost predicate RouteReasons(d: Deps, inp: Input, o: Oracle, cls: Classification, reason: string) {
    && (reason == "qualifier_saturated" <==> OnQualifierPath(d, cls) && NothingToAsk(o))
    && (reason == "qualifier_failed" <==> OnQualifierPath(d, cls) && !NothingToAsk(o) && o.toggle(1) && o.qualify.None?)
    && (reason == "generator_failed"
        <==> !OnQualifierPath(d, cls) && MayGenerate(d, o, cls) && Generated(d, inp, o).reply.None?)
    && reason != "prompt_injection_suspected" && reason != "commitment_needs_human" && reason != "classifier_failed"
  }

  /** A reason from the gates, or none, is none of the failures outside them. */
  lemma GateReasonNamesNoFailure(d: Deps, inp: Input, o: Oracle, cls: Classification, reason: string)
    requires Gates.GateReason(reason) || reason == ""
    requires OnQualifierPath(d, cls) && !NothingToAsk(o) && (o.toggle(1) ==> o.qualify.Some?)
    ensures RouteReasons(d, inp, o, cls, reason)
  {
    hide Generated, MayGenerate, Gates.GateReason;
    CausesAreNoGateReasons(reason);
  }

  lemma QualifierFailuresAreNamed(d: Deps, inp: Input, o: Oracle, cls: Classification)
    requires OnQualifierPath(d, cls)
    ensures NothingToAsk(o) ==> RouteReasons(d, inp, o, cls, "qualifier_saturated")
    ensures !NothingToAsk(o) && o.toggle(1) && o.qualify.None? ==> RouteReasons(d, inp, o, cls, "qualifier_failed")
  {
    hide Generated, MayGenerate;
  }

  lemma QualifyNamesItsCause(d: Deps, inp: Input, o: Oracle, cls: Classification)
    requires OnQualifierPath(d, cls)
    ensures RouteReasons(d, inp, o, cls, Reason(Route(d, inp, o, cls).ending))
  {
    hide Gates.DecideQualifier, Generated, RouteReasons;
    QualifierFailuresAreNamed(d, inp, o, cls);
    if !NothingToAsk(o) && (o.toggle(1) ==> o.qualify.Some?) {
      if o.toggle(1) {
        Gates.GatesGiveGateReasons(d.patterns, cls, o.qualify.value, [], o.toggle(2), d.thresholds);
      }
      GateReasonNamesNoFailure(d, inp, o, cls, Reason(Route(d, inp, o, cls).ending));
    }
  }

  lemma ComposeNamesItsCause(d: Deps, inp: Input, o: Oracle, cls: Classification)
    requires !OnQualifierPath(d, cls)
    ensures RouteReasons(d, inp, o, cls, Reason(Route(d, inp, o, cls).ending))
  {
    hide Gates.Decide, Gates.PreGenerate, Gates.GateReason, Gates.Rank, Generated, GateIssues;
    Gates.GateOneReasons(cls, o.toggle(1), d.thresholds.classifierMin);
    Gates.GatesGiveGateReasons(d.patterns, cls, Reply("", [], false, 0.0, "", ""), [], o.toggle(1), d.thresholds);
    CausesAreNoGateReasons(Gates.PreGenerate(cls, o.toggle(1), d.thresholds.classifierMin).reason);
    var gen := Generated(d, inp, o);
    if gen.reply.Some? {
      var issues := GateIssues(d, o, gen.reply.value);
      Gates.GatesGiveGateReasons(d.patterns, cls, gen.reply.value, issues, o.toggle(2), d.thresholds);
      CausesAreNoGateReasons(Gates.Decide(d.patterns, cls, gen.reply.value, issues, o.toggle(2), d.thresholds).reason);
    }
  }

  /** Every failure outside the gates is named as the reason of the handover exactly when it is what
      ended the run. */
  lemma HandoverNamesItsCause(d: Deps, inp: Input, o: Oracle)
    ensures
      var reason, injected := Reason(Run(d, inp, o).ending), Injected(d.injections, inp.turn.messages);
      && (reason == "prompt_injection_suspected" <==> injected)
      && (reason == "commitment_needs_human" <==> !injected && o.toggle(0) && OfferTakenOver(d, inp, o))
      && (reason == "classifier_failed" <==> !injected && o.toggle(0) && !OfferTakenOver(d, inp, o) && o.classify.None?)
      && (Reached(d, inp, o) ==> RouteReasons(d, inp, o, Gates.EnforcePriority(o.classify.value), reason))
      && (!Reached(d, inp, o) ==>
            reason != "qualifier_saturated" && reason != "qualifier_failed" && reason != "generator_failed")
  {
    InjectionIff(d.injections, inp.turn.messages);
    AcceptedOfferIff(d, inp, o);
    hide FirstInjection, AcceptedOffer, Injected, OfferTakenOver, Gates.EnforcePriority, Route, RouteReasons;
    if o.classify.Some? {
      var cls := Gates.EnforcePriority(o.classify.value);
      if OnQualifierPath(d, cls) {
        QualifyNamesItsCause(d, inp, o, cls);
      } else {
        ComposeNamesItsCause(d, inp, o, cls);
      }
      RouteReasonsAreApart(d, inp, o, cls, Reason(Route(d, inp, o, cls).ending));
    }
  }

  lemma RouteReasonsAreApart(d: Deps, inp: Input, o: Oracle, cls: Classification, reason: string)
    requires RouteReasons(d, inp, o, cls, reason)
    ensures reason != "prompt_injection_suspected" && reason != "commitment_needs_human" && reason != "classifier_failed"
  {
  }

  // ----- what an ending writes -----

  /** The reply an ending carries. */
  function Carried(e: Ending): Option<Reply> {
    match e
    case Handed(_, _, attached, _) => attached
    case Posted(_, reply, _) => Some(reply)
  }

  /** Every note goes to the conversation's own raw id under the turn's key, with the reply's body. */
  ghost predicate NoteIsFor(e: Event, inp: Input, ending: Ending) {
    e.NotePosted? ==>
      && ending.Posted? && e.key == inp.turn.key && e.rawID == inp.conv.rawID
      && e.body == ending.reply.body && e.at == inp.now && e.ok == ending.accepted
  }

  /** An escalation repeats the ending's decision, or says the note was refused; with its reply. */
  ghost predicate EscalationIsFor(e: Event, inp: Input, ending: Ending) {
    e.EscalationRecorded? ==>
      && e.key == inp.turn.key && e.postID == inp.turn.lastPostID && e.cls == ending.cls && e.attached == Carried(ending)
      && e.decision == (if ending.Handed? then ending.decision else Decision(false, "post_note_failed", []))
      && (ending.Posted? ==> !ending.accepted)
  }

  /** A close remembers the turn with its classification and reply, as sent exactly when the note
      was accepted. */
  ghost predicate CloseIsFor(e: Event, d: Deps, inp: Input, o: Oracle, ending: Ending) {
    e.MemoryClosed? ==>
      && e.found == o.atClose && e.summarizer == SummarizerOf(d, o)
      && e.closing.input == inp && e.closing.cls == ending.cls && e.closing.reply == Carried(ending)
      && e.closing.sent == (ending.Posted? && ending.accepted)
  }

  predicate IsClose(e: Event) {
    e.MemoryClosed?
  }

  lemma CloseLogCloses(d: Deps, inp: Input, o: Oracle, c: Closing)
    ensures Count(CloseLog(d, inp, o, c), IsClose) == 1
    ensures forall e :: e in CloseLog(d, inp, o, c) ==>
              !e.NotePosted? && !e.EscalationRecorded? && (e.MemoryClosed? ==> e == MemoryClosed(o.atClose, c, SummarizerOf(d, o)))
  {
    hide Count, Overflows, Extended;
    var closed, done := MemoryClosed(o.atClose, c, SummarizerOf(d, o)), Completed(inp.turn.key, inp.turn.lastPostID);
    CountOne(closed, IsClose);
    CountSnoc([closed], done, IsClose);
    CountConcat([Chat(Summarizing, [])], [closed, done], IsClose);
    CountOne(Chat(Summarizing, []), IsClose);
    assert [closed] + [done] == [closed, done] && [] + [closed, done] == [closed, done];
  }

  lemma EndingWrites(d: Deps, inp: Input, o: Oracle, ending: Ending)
    ensures
      var log := EndingLog(d, inp, o, ending);
      && (forall e :: e in log ==> NoteIsFor(e, inp, ending) && EscalationIsFor(e, inp, ending) && CloseIsFor(e, d, inp, o, ending))
      && Count(log, IsClose) == (if ending.Handed? && !ending.remembered then 0 else 1)
  {
    hide Count, CloseLog;
    var done := Completed(inp.turn.key, inp.turn.lastPostID);
    CountOne(done, IsClose);
    match ending {
      case Handed(decision, cls, reply, remembered) =>
        var escalation := EscalationEvent(inp, decision, cls, reply);
        CloseLogCloses(d, inp, o, Closing(inp, cls, reply, false));
        CountOne(escalation, IsClose);
        CountConcat([escalation], if remembered then CloseLog(d, inp, o, Closing(inp, cls, reply, false)) else [done], IsClose);
      case Posted(cls, reply, accepted) =>
        var note := NotePosted(inp.turn.key, inp.conv.rawID, reply.body, inp.now, accepted);
        var escalation := EscalationEvent(inp, Decision(false, "post_note_failed", []), cls, Some(reply));
        var close := CloseLog(d, inp, o, Closing(inp, cls, Some(reply), accepted));
        CloseLogCloses(d, inp, o, Closing(inp, cls, Some(reply), accepted));
        CountOne(note, IsClose);
        CountOne(escalation, IsClose);
        CountConcat([escalation], close, IsClose);
        CountConcat([note], if accepted then close else [escalation] + close, IsClose);
    }
  }

  /** Everything a run writes for the outside is about this turn and says what happened; the turn is
      remembered once, or not at all when it is forgotten. */
  lemma LogSaysWhatHappened(d: Deps, inp: Input, o: Oracle)
    ensures
      var log, ending := RunLog(d, inp, o), Run(d, inp, o).ending;
      && (forall e :: e in log ==> NoteIsFor(e, inp, ending) && EscalationIsFor(e, inp, ending) && CloseIsFor(e, d, inp, o, ending))
      && Count(log, IsClose) == (if Forgotten(Run(d, inp, o)) then 0 else 1)
  {
    hide Run, EndingLog, Count, NoteIsFor, EscalationIsFor, CloseIsFor;
    var t := Run(d, inp, o);
    RunIsDisciplined(d, inp, o);
    EndingWrites(d, inp, o, t.ending);
    CountConcat(t.body, EndingLog(d, inp, o, t.ending), IsClose);
    CountNone(t.body, IsClose);
    forall e | e in t.body
      ensures NoteIsFor(e, inp, t.ending) && EscalationIsFor(e, inp, t.ending) && CloseIsFor(e, d, inp, o, t.ending)
    {
      BodyWritesNothing(d, inp, o, t.ending, e);
    }
  }

  lemma BodyWritesNothing(d: Deps, inp: Input, o: Oracle, ending: Ending, e: Event)
    requires BodyEvent(e)
    ensures NoteIsFor(e, inp, ending) && EscalationIsFor(e, inp, ending) && CloseIsFor(e, d, inp, o, ending)
  {
  }

  /** A reply that reaches the final gate was stored under the turn's last post before the gate's
      toggle read, which is the last thing the body does; the classification was stored raw. */
  lemma ReplyIsStoredBeforeTheGate(d: Deps, inp: Input, o: Oracle)
    requires Carried(Run(d, inp, o).ending).Some?
    ensures
      var t := Run(d, inp, o);
      var n := |t.body| - 1;
      && n >= 0 && t.body[n].ToggleRead?
      && (d.hasReplies ==> ReplyStored(inp.turn.lastPostID, Carried(t.ending).value) in t.body[..n])
      && o.classify.Some? && ClassificationStored(inp.turn.lastPostID, o.classify.value) in t.body[..n]
  {
    hide FirstInjection, AcceptedOffer, Gates.EnforcePriority, Route;
    var cls := Gates.EnforcePriority(o.classify.value);
    RouteStoresReply(d, inp, o, cls);
    var route := Route(d, inp, o, cls).body;
    var before := [ToggleRead(true), MemoryRead(inp.turn.key, o.prior), Chat(Classifier, []),
                   ClassificationStored(inp.turn.lastPostID, o.classify.value)];
    assert before[3] in before;
    assert Run(d, inp, o).body == before + route;
    assert Run(d, inp, o).body[..|before| + |route| - 1] == before + route[..|route| - 1];
  }

  lemma RouteStoresReply(d: Deps, inp: Input, o: Oracle, cls: Classification)
    requires Carried(Route(d, inp, o, cls).ending).Some?
    ensures StoredBeforeGate(d, inp, Route(d, inp, o, cls))
  {
    hide Generated, GateIssues, FinalDecision, Gates.PreGenerate, StoredBeforeGate, Conclude, Stored;
    if OnQualifierPath(d, cls) {
      EndsWithGate(d, inp, o, cls, o.qualify.value, [ToggleRead(true), Chat(Qualifier, [])], [],
                   FinalDecision(d, o, cls, o.qualify.value, true, []));
    } else {
      var reply := Generated(d, inp, o).reply.value;
      EndsWithGate(d, inp, o, cls, reply, [ToggleRead(true)] + Generated(d, inp, o).events,
                   if d.hasCritic then [Chat(Critic, [])] else [],
                   FinalDecision(d, o, cls, reply, false, GateIssues(d, o, reply)));
      var rest := Then(Stored(d, inp, reply), GateAndSend(d, o, cls, reply)).body;
      assert [ToggleRead(true)] + (Generated(d, inp, o).events + rest) == ([ToggleRead(true)] + Generated(d, inp, o).events) + rest;
    }
  }

  /** The carried reply, if replies are stored, is stored before the last toggle read. */
  ghost predicate StoredBeforeGate(d: Deps, inp: Input, t: RunTrace) {
    var n := |t.body| - 1;
    && n >= 0 && t.body[n].ToggleRead? && Carried(t.ending).Some?
    && (d.hasReplies ==> ReplyStored(inp.turn.lastPostID, Carried(t.ending).value) in t.body[..n])
  }

  lemma EndsWithGate(d: Deps, inp: Input, o: Oracle, cls: Classification, reply: Reply, before: seq<Event>, between: seq<Event>, final: Decision)
    ensures
      var t := Conclude(o, cls, reply, final);
      Carried(t.ending).Some? ==> StoredBeforeGate(d, inp, Then(before, Then(Stored(d, inp, reply), Then(between, t))))
    ensures
      var t := Conclude(o, cls, reply, final);
      Then(before, Then(Stored(d, inp, reply), t)) == Then(before, Then(Stored(d, inp, reply), Then([], t)))
  {
    var t := Conclude(o, cls, reply, final);
    var whole := Then(before, Then(Stored(d, inp, reply), Then(between, t))).body;
    var n := |whole| - 1;
    assert whole[..n] == before + Stored(d, inp, reply) + between;
    assert [] + t.body == t.body;
  }

  /** Every ending past the classifier carries the corrected classification, every other one none. */
  lemma EndingCarriesClassification(d: Deps, inp: Input, o: Oracle)
    ensures Run(d, inp, o).ending.cls == if Reached(d, inp, o) then Gates.EnforcePriority(o.classify.value) else NO_CLASSIFICATION
  {
    InjectionIff(d.injections, inp.turn.messages);
    AcceptedOfferIff(d, inp, o);
    hide FirstInjection, AcceptedOffer, Injected, OfferTakenOver, Gates.EnforcePriority, Route;
    if o.classify.Some? {
      RouteKeepsClassification(d, inp, o, Gates.EnforcePriority(o.classify.value));
    }
  }

  lemma RouteKeepsClassification(d: Deps, inp: Input, o: Oracle, cls: Classification)
    ensures Route(d, inp, o, cls).ending.cls == cls
  {
    hide Generated, GateIssues, FinalDecision, Gates.PreGenerate;
  }

  // ----- what a run reads, stores and spends -----

  /** An effect of the body is about this turn: its own memory, its own classification, its own reply. */
  ghost predicate IsForTurn(e: Event, d: Deps, inp: Input, o: Oracle) {
    && (e.MemoryRead? ==> e.key == inp.turn.key && e.found == o.prior)
    && (e.ClassificationStored? ==> e.postID == inp.turn.lastPostID && o.classify == Some(e.cls))
    && (e.ReplyStored? ==>
          e.postID == inp.turn.lastPostID && (o.qualify == Some(e.stored) || Generated(d, inp, o).reply == Some(e.stored)))
  }

  ghost predicate AllForTurn(log: seq<Event>, d: Deps, inp: Input, o: Oracle) {
    forall e :: e in log ==> IsForTurn(e, d, inp, o)
  }

  lemma JoinForTurn(a: seq<Event>, b: seq<Event>, d: Deps, inp: Input, o: Oracle)
    requires AllForTurn(a, d, inp, o) && AllForTurn(b, d, inp, o)
    ensures AllForTurn(a + b, d, inp, o)
  {
    hide IsForTurn;
  }

  lemma GeneratedForTurn(d: Deps, inp: Input, o: Oracle)
    ensures AllForTurn(Generated(d, inp, o).events, d, inp, o)
  {
    hide Agent.Generation;
    Agent.GenerationIsGrounded(d.wire, o.script, inp.listingID, d.maxTurns);
    forall e | e in Generated(d, inp, o).events ensures IsForTurn(e, d, inp, o) {
      assert Agent.QuietEvent(e);
    }
  }

  lemma SimpleEventsForTurn(d: Deps, inp: Input, o: Oracle, read: bool, stage: Stage)
    ensures AllForTurn([ToggleRead(read)], d, inp, o) && AllForTurn([Chat(stage, [])], d, inp, o) && AllForTurn([], d, inp, o)
    ensures AllForTurn([ToggleRead(true), Chat(Qualifier, [])], d, inp, o)
    ensures AllForTurn([ToggleRead(true), MemoryRead(inp.turn.key, o.prior)], d, inp, o)
    ensures o.qualify.Some? ==> AllForTurn(Stored(d, inp, o.qualify.value), d, inp, o)
    ensures Generated(d, inp, o).reply.Some? ==> AllForTurn(Stored(d, inp, Generated(d, inp, o).reply.value), d, inp, o)
    ensures o.classify.Some? ==> AllForTurn([ClassificationStored(inp.turn.lastPostID, o.classify.value)], d, inp, o)
  {
    hide Generated;
  }

  lemma RouteForTurn(d: Deps, inp: Input, o: Oracle, cls: Classification)
    ensures AllForTurn(Route(d, inp, o, cls).body, d, inp, o)
  {
    hide AllForTurn, Generated, GateIssues, FinalDecision, Gates.PreGenerate, Stored;
    SimpleEventsForTurn(d, inp, o, o.toggle(1), Critic);
    SimpleEventsForTurn(d, inp, o, o.toggle(2), Critic);
    SimpleEventsForTurn(d, inp, o, true, Critic);
    var gate := [ToggleRead(o.toggle(2))];
    if OnQualifierPath(d, cls) {
      if o.qualify.Some? {
        JoinForTurn(Stored(d, inp, o.qualify.value), gate, d, inp, o);
        JoinForTurn([ToggleRead(true), Chat(Qualifier, [])], Stored(d, inp, o.qualify.value) + gate, d, inp, o);
      }
      JoinForTurn([ToggleRead(true), Chat(Qualifier, [])], [], d, inp, o);
    } else {
      var gen := Generated(d, inp, o);
      GeneratedForTurn(d, inp, o);
      JoinForTurn(gen.events, [], d, inp, o);
      var tail: seq<Event> := [];
      if gen.reply.Some? {
        var review := if d.hasCritic then [Chat(Critic, [])] else [];
        JoinForTurn(review, gate, d, inp, o);
        JoinForTurn(Stored(d, inp, gen.reply.value), review + gate, d, inp, o);
        tail := Stored(d, inp, gen.reply.value) + (review + gate);
      }
      JoinForTurn(gen.events, tail, d, inp, o);
      JoinForTurn([ToggleRead(true)], gen.events + tail, d, inp, o);
    }
  }

  /** Whatever a run reads or stores on its way is about its own turn. */
  lemma BodyIsForTurn(d: Deps, inp: Input, o: Oracle)
    ensures AllForTurn(Run(d, inp, o).body, d, inp, o)
  {
    hide AllForTurn, Route, FirstInjection, AcceptedOffer, Generated, Gates.EnforcePriority;
    SimpleEventsForTurn(d, inp, o, false, Classifier);
    var start := [ToggleRead(true), MemoryRead(inp.turn.key, o.prior)];
    JoinForTurn(start, [], d, inp, o);
    JoinForTurn([Chat(Classifier, [])], [], d, inp, o);
    JoinForTurn(start, [Chat(Classifier, [])] + [], d, inp, o);
    if o.classify.Some? {
      var cls := Gates.EnforcePriority(o.classify.value);
      RouteForTurn(d, inp, o, cls);
      var stored := [ClassificationStored(inp.turn.lastPostID, o.classify.value)];
      JoinForTurn(stored, Route(d, inp, o, cls).body, d, inp, o);
      JoinForTurn([Chat(Classifier, [])], stored + Route(d, inp, o, cls).body, d, inp, o);
      JoinForTurn(start, [Chat(Classifier, [])] + (stored + Route(d, inp, o, cls).body), d, inp, o);
    }
  }

  function Calls(log: seq<Event>): nat {
    Count(log, Agent.IsChat)
  }

  lemma CallsJoin(a: seq<Event>, b: seq<Event>)
    ensures Calls(a + b) == Calls(a) + Calls(b)
  {
    CountConcat(a, b, Agent.IsChat);
  }

  lemma CallsOfOne(e: Event)
    ensures Calls([e]) == if e.Chat? then 1 else 0
    ensures Calls([]) == 0
  {
    CountOne(e, Agent.IsChat);
  }

  lemma StoringIsNoCall(d: Deps, inp: Input, reply: Reply)
    ensures Calls(Stored(d, inp, reply)) == 0
  {
    CallsOfOne(ReplyStored(inp.turn.lastPostID, reply));
  }

  lemma RouteCalls(d: Deps, inp: Input, o: Oracle, cls: Classification)
    ensures Calls(Route(d, inp, o, cls).body) <= if OnQualifierPath(d, cls) then 1 else Agent.Budget(d.maxTurns) + 2
  {
    hide Calls, Generated, GateIssues, FinalDecision, Gates.PreGenerate, Stored;
    var gate := [ToggleRead(o.toggle(2))];
    CallsOfOne(ToggleRead(o.toggle(1)));
    CallsOfOne(gate[0]);
    CallsOfOne(ToggleRead(true));
    CallsOfOne(ToggleRead(false));
    if OnQualifierPath(d, cls) {
      CallsOfOne(Chat(Qualifier, []));
      CallsJoin([ToggleRead(true)], [Chat(Qualifier, [])]);
      assert [ToggleRead(true)] + [Chat(Qualifier, [])] == [ToggleRead(true), Chat(Qualifier, [])];
      CallsJoin([ToggleRead(true), Chat(Qualifier, [])], []);
      if o.qualify.Some? {
        StoringIsNoCall(d, inp, o.qualify.value);
        CallsJoin(Stored(d, inp, o.qualify.value), gate);
        CallsJoin([ToggleRead(true), Chat(Qualifier, [])], Stored(d, inp, o.qualify.value) + gate);
      }
    } else {
      var gen := Generated(d, inp, o);
      GeneratedCalls(d, inp, o);
      var tail: seq<Event> := [];
      if gen.reply.Some? {
        var review := if d.hasCritic then [Chat(Critic, [])] else [];
        CallsOfOne(Chat(Critic, []));
        CallsJoin(review, gate);
        StoringIsNoCall(d, inp, gen.reply.value);
        CallsJoin(Stored(d, inp, gen.reply.value), review + gate);
        tail := Stored(d, inp, gen.reply.value) + (review + gate);
      }
      CallsJoin(gen.events, tail);
      CallsJoin([ToggleRead(true)], gen.events + tail);
    }
  }

  lemma GeneratedCalls(d: Deps, inp: Input, o: Oracle)
    ensures Calls(Generated(d, inp, o).events) <= Agent.Budget(d.maxTurns) + 1
  {
    hide Agent.Generation, Count;
    Agent.GenerationIsBounded(d.wire, o.script, inp.listingID, d.maxTurns);
  }

  lemma EndingCalls(d: Deps, inp: Input, o: Oracle, ending: Ending)
    ensures Calls(EndingLog(d, inp, o, ending)) <= 1
  {
    hide Calls, Overflows, Extended;
    var cls, carried, sent := ending.cls, Carried(ending), ending.Posted? && ending.accepted;
    var closing := Closing(inp, cls, carried, sent);
    var closed, done := MemoryClosed(o.atClose, closing, SummarizerOf(d, o)), Completed(inp.turn.key, inp.turn.lastPostID);
    CallsOfOne(closed);
    CallsOfOne(done);
    CallsOfOne(Chat(Summarizing, []));
    CallsJoin([closed], [done]);
    assert [closed] + [done] == [closed, done] && [] + [closed, done] == [closed, done];
    CallsJoin([Chat(Summarizing, [])], [closed, done]);
    var close := CloseLog(d, inp, o, closing);
    match ending {
      case Handed(decision, _, reply, remembered) =>
        var head := EscalationEvent(inp, decision, cls, reply);
        CallsOfOne(head);
        CallsJoin([head], if remembered then close else [done]);
      case Posted(_, reply, accepted) =>
        var note := NotePosted(inp.turn.key, inp.conv.rawID, reply.body, inp.now, accepted);
        var head := EscalationEvent(inp, Decision(false, "post_note_failed", []), cls, Some(reply));
        CallsOfOne(note);
        CallsOfOne(head);
        CallsJoin([head], close);
        CallsJoin([note], if accepted then close else [head] + close);
    }
  }

  /** Whatever the models answer, a run makes at most maxTurns + 4 model calls: the classifier, the
      generator's budget with its reflection, the critic, and one memory summary. */
  lemma RunSpendIsBounded(d: Deps, inp: Input, o: Oracle)
    ensures Count(RunLog(d, inp, o), Agent.IsChat) <= Agent.Budget(d.maxTurns) + 4
  {
    hide Calls, Route, FirstInjection, AcceptedOffer, EndingLog, Gates.EnforcePriority;
    var t := Run(d, inp, o);
    EndingCalls(d, inp, o, t.ending);
    CallsJoin(t.body, EndingLog(d, inp, o, t.ending));
    BodyCalls(d, inp, o);
    CallsAreCounted(RunLog(d, inp, o));
  }

  lemma CallsAreCounted(log: seq<Event>)
    ensures Calls(log) == Count(log, Agent.IsChat)
  {
  }

  lemma BodyCalls(d: Deps, inp: Input, o: Oracle)
    ensures Calls(Run(d, inp, o).body) <= Agent.Budget(d.maxTurns) + 3
  {
    hide Calls, Route, FirstInjection, AcceptedOffer, Gates.EnforcePriority;
    var read, asked := MemoryRead(inp.turn.key, o.prior), Chat(Classifier, []);
    CallsOfOne(ToggleRead(true));
    CallsOfOne(ToggleRead(false));
    CallsOfOne(read);
    CallsOfOne(asked);
    CallsJoin([ToggleRead(true)], [read]);
    assert [ToggleRead(true)] + [read] == [ToggleRead(true), read];
    CallsJoin([ToggleRead(true), read], []);
    CallsJoin([asked], []);
    CallsJoin([ToggleRead(true), read], [asked] + []);
    if o.classify.Some? {
      var stored := [ClassificationStored(inp.turn.lastPostID, o.classify.value)];
      var route := Route(d, inp, o, Gates.EnforcePriority(o.classify.value)).body;
      RouteCalls(d, inp, o, Gates.EnforcePriority(o.classify.value));
      CallsOfOne(stored[0]);
      CallsJoin(stored, route);
      CallsJoin([asked], stored + route);
      CallsJoin([ToggleRead(true), read], [asked] + (stored + route));
    }
  }
}
