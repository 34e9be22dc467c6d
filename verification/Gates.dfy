/** The deterministic auto-send gates (internal/application/decide) and the Traffic Light
    priority rule (internal/domain/classification.go). */
module Gates {
  import opened Domain

  // ----- codes -----

  predicate LowRisk(c: Code) {
    c in {G1, G2, Y1, Y3, Y4, Y6, Y7}
  }

  predicate AlwaysEscalates(c: Code) {
    c in {Y2, Y5, R1, R2}
  }

  /** Lower rank, higher priority; unknown codes rank last. */
  function Rank(c: Code): nat {
    match c
    case R1 => 0 case R2 => 1 case Y5 => 2 case Y2 => 3 case Y4 => 4 case Y1 => 5
    case Y3 => 6 case Y6 => 7 case Y7 => 8 case G1 => 9 case G2 => 10 case X1 => 11
    case Other(_) => 12
  }

  function CodeName(c: Code): string {
    match c
    case G1 => "G1" case G2 => "G2"
    case Y1 => "Y1" case Y2 => "Y2" case Y3 => "Y3" case Y4 => "Y4" case Y5 => "Y5" case Y6 => "Y6" case Y7 => "Y7"
    case R1 => "R1" case R2 => "R2" case X1 => "X1"
    case Other(name) => name
  }

  function EnforcePriority(c: Classification): Classification {
    if c.secondary.None? || Rank(c.secondary.value) >= Rank(c.primary) then c
    else c.(primary := c.secondary.value, secondary := Some(c.primary))
  }

  predicate Mentions(c: Classification, code: Code) {
    c.primary == code || c.secondary == Some(code)
  }

  /** The codes that need a human are exactly the first ranks, so the corrected primary is one
      of them if and only if either raw code is. */
  lemma PriorityExposesEscalation(c: Classification)
    ensures AlwaysEscalates(EnforcePriority(c).primary)
            <==> exists code :: AlwaysEscalates(code) && Mentions(c, code)
    ensures forall code :: Mentions(c, code) <==> Mentions(EnforcePriority(c), code)
    ensures forall code :: Mentions(c, code) ==> Rank(EnforcePriority(c).primary) <= Rank(code)
    ensures EnforcePriority(EnforcePriority(c)) == EnforcePriority(c)
  {
    var e := EnforcePriority(c);
    forall code ensures AlwaysEscalates(code) <==> Rank(code) <= 3 {
    }
    assert Mentions(c, e.primary);
  }

  /** The documented order: red, then Y5, Y2, Y4, Y1, Y3, Y6, Y7, green, gray, and anything else last. */
  lemma RankOrder(c: Code)
    ensures Rank(R1) < Rank(R2) < Rank(Y5) < Rank(Y2) < Rank(Y4) < Rank(Y1) < Rank(Y3) < Rank(Y6) < Rank(Y7)
            < Rank(G1) < Rank(G2) < Rank(X1)
    ensures c.Other? <==> Rank(c) > Rank(X1)
  {
  }

  /** The two code sets cut the order into a prefix that needs a human and a stretch that may be
      answered; X1 and unknown codes are in neither. */
  lemma SetsFollowRank(c: Code)
    ensures AlwaysEscalates(c) <==> Rank(c) <= Rank(Y2)
    ensures LowRisk(c) <==> Rank(Y2) < Rank(c) < Rank(X1)
  {
  }

  // ----- regular expressions, as arbitrary predicates over the body -----

  datatype Patterns = Patterns(
    hedges: string -> bool,
    holdPromise: string -> bool,
    channelPromise: string -> bool,
    restricted: string -> seq<string>)

  datatype Thresholds = Thresholds(classifierMin: real, generatorMin: real)

  // ----- GATE 1 -----

  function PreGenerate(cls: Classification, enabled: bool, classifierMin: real): Decision {
    if !enabled then Decision(false, "auto_disabled", [])
    else if cls.riskFlag then Decision(false, "risk_flag", [cls.riskReason])
    else if AlwaysEscalates(cls.primary) then Decision(false, "code_requires_human", [CodeName(cls.primary)])
    else if !LowRisk(cls.primary) then Decision(false, "code_not_in_low_risk", [CodeName(cls.primary)])
    else if cls.confidence < classifierMin then Decision(false, "classifier_low_confidence", [])
    else Decision(true, "ok_to_generate", [])
  }

  // ----- reply validation -----

  predicate UsedSuccessfully(calls: seq<ToolCall>, name: string) {
    exists i | 0 <= i < |calls| :: calls[i].name == name && calls[i].error == ""
  }

  predicate SaneLength(body: string, lo: nat, hi: nat) {
    lo <= |body| <= hi
  }

  function Tag(failed: bool, name: string): seq<string> {
    if failed then [name] else []
  }

  /** One tag per failed check, in check order. */
  function ReplyIssues(p: Patterns, r: Reply): seq<string> {
    if r.abortReason != "" then ["abort:" + r.abortReason]
    else
      Tag(!SaneLength(r.body, 60, 900), "length_out_of_range")
      + Tag(p.hedges(r.body), "hedging_language")
      + Tag(r.sellCertainty && !UsedSuccessfully(r.usedTools, "check_availability"), "sell_certainty_without_availability")
      + Tag(p.holdPromise(r.body) && !UsedSuccessfully(r.usedTools, "hold_reservation"), "uncovered_commitment_hold")
      + Tag(p.channelPromise(r.body), "uncovered_commitment_channel")
  }

  /** A reply raises no issue exactly when every promise in it is backed by a successful call. */
  lemma CleanReplyIff(p: Patterns, r: Reply)
    ensures ReplyIssues(p, r) == [] <==>
            && r.abortReason == "" && SaneLength(r.body, 60, 900) && !p.hedges(r.body)
            && (r.sellCertainty ==> UsedSuccessfully(r.usedTools, "check_availability"))
            && (p.holdPromise(r.body) ==> UsedSuccessfully(r.usedTools, "hold_reservation"))
            && !p.channelPromise(r.body)
  {
  }

  ghost predicate Succeeded(calls: seq<ToolCall>, name: string) {
    exists c :: c in calls && c.name == name && c.error == ""
  }

  lemma SucceededIff(calls: seq<ToolCall>, name: string)
    ensures UsedSuccessfully(calls, name) <==> Succeeded(calls, name)
  {
  }

  lemma InTag(failed: bool, name: string, tag: string)
    ensures tag in Tag(failed, name) <==> failed && tag == name
  {
  }

  /** Which tags a reply draws: only the abort when it was aborted, otherwise one per failed check. */
  lemma IssuesNameFailures(p: Patterns, r: Reply, tag: string)
    ensures r.abortReason != "" ==> ReplyIssues(p, r) == ["abort:" + r.abortReason]
    ensures r.abortReason == "" ==>
      (tag in ReplyIssues(p, r) <==>
        || (tag == "length_out_of_range" && (|r.body| < 60 || |r.body| > 900))
        || (tag == "hedging_language" && p.hedges(r.body))
        || (tag == "sell_certainty_without_availability" && r.sellCertainty && !Succeeded(r.usedTools, "check_availability"))
        || (tag == "uncovered_commitment_hold" && p.holdPromise(r.body) && !Succeeded(r.usedTools, "hold_reservation"))
        || (tag == "uncovered_commitment_channel" && p.channelPromise(r.body)))
  {
    SucceededIff(r.usedTools, "check_availability");
    SucceededIff(r.usedTools, "hold_reservation");
    hide UsedSuccessfully, Succeeded, Tag;
    InTag(!SaneLength(r.body, 60, 900), "length_out_of_range", tag);
    InTag(p.hedges(r.body), "hedging_language", tag);
    InTag(r.sellCertainty && !UsedSuccessfully(r.usedTools, "check_availability"), "sell_certainty_without_availability", tag);
    InTag(p.holdPromise(r.body) && !UsedSuccessfully(r.usedTools, "hold_reservation"), "uncovered_commitment_hold", tag);
    InTag(p.channelPromise(r.body), "uncovered_commitment_channel", tag);
  }

  method ValidateReply(p: Patterns, r: Reply) returns (issues: seq<string>)
    ensures issues == ReplyIssues(p, r)
  {
    hide UsedSuccessfully;
    if r.abortReason != "" {
      return ["abort:" + r.abortReason];
    }
    issues := [];
    if |r.body| < 60 || |r.body| > 900 {
      issues := issues + ["length_out_of_range"];
    }
    ghost var tags := Tag(!SaneLength(r.body, 60, 900), "length_out_of_range");
    assert issues == tags;
    if p.hedges(r.body) {
      issues := issues + ["hedging_language"];
    }
    tags := tags + Tag(p.hedges(r.body), "hedging_language");
    assert issues == tags;
    if r.sellCertainty && !UsedSuccessfully(r.usedTools, "check_availability") {
      issues := issues + ["sell_certainty_without_availability"];
    }
    tags := tags + Tag(r.sellCertainty && !UsedSuccessfully(r.usedTools, "check_availability"), "sell_certainty_without_availability");
    assert issues == tags;
    if p.holdPromise(r.body) && !UsedSuccessfully(r.usedTools, "hold_reservation") {
      issues := issues + ["uncovered_commitment_hold"];
    }
    tags := tags + Tag(p.holdPromise(r.body) && !UsedSuccessfully(r.usedTools, "hold_reservation"), "uncovered_commitment_hold");
    assert issues == tags;
    if p.channelPromise(r.body) {
      issues := issues + ["uncovered_commitment_channel"];
    }
  }

  function QualifierIssues(p: Patterns, r: Reply): seq<string> {
    if r.abortReason != "" then ["abort:" + r.abortReason]
    else
      Tag(!SaneLength(r.body, 30, 280), "length_out_of_range")
      + Tag(p.hedges(r.body), "hedging_language")
  }

  method ValidateQualifier(p: Patterns, r: Reply) returns (issues: seq<string>)
    ensures issues == QualifierIssues(p, r)
    ensures issues == [] <==> r.abortReason == "" && SaneLength(r.body, 30, 280) && !p.hedges(r.body)
  {
    if r.abortReason != "" {
      return ["abort:" + r.abortReason];
    }
    issues := [];
    if |r.body| < 30 || |r.body| > 280 {
      issues := issues + ["length_out_of_range"];
    }
    if p.hedges(r.body) {
      issues := issues + ["hedging_language"];
    }
  }

  // ----- GATE 2 -----

  function Decide(p: Patterns, cls: Classification, reply: Reply, issues: seq<string>, enabled: bool, thr: Thresholds): Decision {
    if !enabled then Decision(false, "auto_disabled", [])
    else if reply.abortReason != "" then Decision(false, "generator_aborted", [reply.abortReason])
    else
      var verdict := PreGenerate(cls, enabled, thr.classifierMin);
      if verdict.reason != "ok_to_generate" then verdict
      else if reply.confidence < thr.generatorMin then Decision(false, "generator_low_confidence", [])
      else if |issues| > 0 then Decision(false, "reply_validation", issues)
      else if |p.restricted(reply.body)| > 0 then Decision(false, "restricted_content", p.restricted(reply.body))
      else Decision(true, "ok", [])
  }

  function DecideQualifier(p: Patterns, reply: Reply, enabled: bool, minConf: real): Decision {
    if !enabled then Decision(false, "auto_disabled", [])
    else if reply.abortReason != "" then Decision(false, "generator_aborted", [reply.abortReason])
    else if |QualifierIssues(p, reply)| > 0 then Decision(false, "reply_validation", QualifierIssues(p, reply))
    else if reply.confidence < minConf then Decision(false, "generator_low_confidence", [])
    else if |p.restricted(reply.body)| > 0 then Decision(false, "restricted_content", p.restricted(reply.body))
    else Decision(true, "ok", [])
  }

  /** Everything a reply must satisfy to leave through GATE 2. */
  ghost predicate Sendable(p: Patterns, cls: Classification, reply: Reply, issues: seq<string>, enabled: bool, thr: Thresholds) {
    && enabled
    && !cls.riskFlag && LowRisk(cls.primary) && cls.confidence >= thr.classifierMin
    && reply.abortReason == "" && reply.confidence >= thr.generatorMin
    && issues == [] && p.restricted(reply.body) == []
  }

  /** GATE 2 opens exactly for sendable replies, and never later than GATE 1 would. */
  lemma DecideIff(p: Patterns, cls: Classification, reply: Reply, issues: seq<string>, enabled: bool, thr: Thresholds)
    ensures Decide(p, cls, reply, issues, enabled, thr).autoSend <==> Sendable(p, cls, reply, issues, enabled, thr)
    ensures Decide(p, cls, reply, issues, enabled, thr).autoSend ==> PreGenerate(cls, enabled, thr.classifierMin).autoSend
  {
  }

  ghost predicate QualifierSendable(p: Patterns, reply: Reply, enabled: bool, minConf: real) {
    && enabled && reply.abortReason == "" && reply.confidence >= minConf
    && SaneLength(reply.body, 30, 280) && !p.hedges(reply.body) && p.restricted(reply.body) == []
  }

  lemma DecideQualifierIff(p: Patterns, reply: Reply, enabled: bool, minConf: real)
    ensures DecideQualifier(p, reply, enabled, minConf).autoSend <==> QualifierSendable(p, reply, enabled, minConf)
  {
  }

  /** The check a denial names. */
  ghost predicate Fails(reason: string, p: Patterns, cls: Classification, reply: Reply, issues: seq<string>, enabled: bool, thr: Thresholds) {
    || (reason == "auto_disabled" && !enabled)
    || (reason == "generator_aborted" && reply.abortReason != "")
    || (reason == "risk_flag" && cls.riskFlag)
    || (reason == "code_requires_human" && AlwaysEscalates(cls.primary))
    || (reason == "code_not_in_low_risk" && !LowRisk(cls.primary))
    || (reason == "classifier_low_confidence" && cls.confidence < thr.classifierMin)
    || (reason == "generator_low_confidence" && reply.confidence < thr.generatorMin)
    || (reason == "reply_validation" && issues != [])
    || (reason == "restricted_content" && p.restricted(reply.body) != [])
  }

  /** A denial names a check that really fails and carries the evidence; with the toggle off it
      always names the toggle. */
  lemma DenialIsTruthful(p: Patterns, cls: Classification, reply: Reply, issues: seq<string>, enabled: bool, thr: Thresholds)
    ensures
      var d := Decide(p, cls, reply, issues, enabled, thr);
      && (!d.autoSend ==> Fails(d.reason, p, cls, reply, issues, enabled, thr))
      && (d.reason == "auto_disabled" <==> !enabled)
      && (d.reason == "risk_flag" ==> d.detail == [cls.riskReason])
      && (d.reason == "reply_validation" ==> d.detail == issues)
      && (d.reason == "restricted_content" ==> d.detail == p.restricted(reply.body))
  {
  }

  /** GATE 1 gives the reason of the first check that fails: toggle, risk flag, a code that needs a
      human, a code that may not be answered, confidence. */
  lemma GateOneReasons(cls: Classification, enabled: bool, min: real)
    ensures
      var d, clear := PreGenerate(cls, enabled, min), enabled && !cls.riskFlag;
      && (d.reason == "auto_disabled" <==> !enabled)
      && (d.reason == "risk_flag" <==> enabled && cls.riskFlag)
      && (d.reason == "code_requires_human" <==> clear && Rank(cls.primary) <= Rank(Y2))
      && (d.reason == "code_not_in_low_risk" <==> clear && Rank(cls.primary) >= Rank(X1))
      && (d.reason == "classifier_low_confidence"
          <==> clear && Rank(Y2) < Rank(cls.primary) < Rank(X1) && cls.confidence < min)
      && (d.reason == "ok_to_generate" <==> d.autoSend)
      && (d.autoSend <==> clear && Rank(Y2) < Rank(cls.primary) < Rank(X1) && cls.confidence >= min)
  {
    SetsFollowRank(cls.primary);
    RankOrder(cls.primary);
    hide AlwaysEscalates, LowRisk, Rank, CodeName;
  }

  /** GATE 2 adds the abort before GATE 1, and confidence, validation and restricted content after it. */
  lemma GateTwoReasons(p: Patterns, cls: Classification, reply: Reply, issues: seq<string>, enabled: bool, thr: Thresholds)
    ensures
      var d, gate1 := Decide(p, cls, reply, issues, enabled, thr), PreGenerate(cls, enabled, thr.classifierMin);
      var open := reply.abortReason == "" && gate1.autoSend;
      && (d.reason == "generator_aborted" <==> enabled && reply.abortReason != "")
      && (!enabled || (reply.abortReason == "" && !gate1.autoSend) ==> d == gate1)
      && (d.reason == "generator_low_confidence" <==> open && reply.confidence < thr.generatorMin)
      && (d.reason == "reply_validation" <==> open && reply.confidence >= thr.generatorMin && issues != [])
      && (d.reason == "restricted_content"
          <==> open && reply.confidence >= thr.generatorMin && issues == [] && p.restricted(reply.body) != [])
      && (d.reason == "ok" <==> d.autoSend)
  {
    GateOneReasons(cls, enabled, thr.classifierMin);
    GateOneIsClosedOtherwise(cls, enabled, thr.classifierMin);
    hide AlwaysEscalates, LowRisk, Rank, CodeName;
  }

  /** GATE 1 knows no other reason. */
  lemma GateOneIsClosedOtherwise(cls: Classification, enabled: bool, min: real)
    ensures
      PreGenerate(cls, enabled, min).reason
      in {"auto_disabled", "risk_flag", "code_requires_human", "code_not_in_low_risk", "classifier_low_confidence", "ok_to_generate"}
  {
  }

  /** The qualifier's gate: toggle, abort, validation, confidence, restricted content, in that order. */
  lemma QualifierReasons(p: Patterns, reply: Reply, enabled: bool, min: real)
    ensures
      var d := DecideQualifier(p, reply, enabled, min);
      var sound := 30 <= |reply.body| <= 280 && !p.hedges(reply.body);
      var open := enabled && reply.abortReason == "";
      && (d.reason == "auto_disabled" <==> !enabled)
      && (d.reason == "generator_aborted" <==> enabled && reply.abortReason != "")
      && (d.reason == "reply_validation" <==> open && !sound)
      && (d.reason == "generator_low_confidence" <==> open && sound && reply.confidence < min)
      && (d.reason == "restricted_content"
          <==> open && sound && reply.confidence >= min && p.restricted(reply.body) != [])
      && (d.reason == "ok" <==> d.autoSend)
  {
  }

  /** The reasons the gates can give. */
  predicate GateReason(reason: string) {
    reason in {"auto_disabled", "generator_aborted", "risk_flag", "code_requires_human", "code_not_in_low_risk",
               "classifier_low_confidence", "ok_to_generate", "generator_low_confidence", "reply_validation",
               "restricted_content", "ok"}
  }

  lemma GatesGiveGateReasons(p: Patterns, cls: Classification, reply: Reply, issues: seq<string>, enabled: bool, thr: Thresholds)
    ensures GateReason(PreGenerate(cls, enabled, thr.classifierMin).reason)
    ensures GateReason(Decide(p, cls, reply, issues, enabled, thr).reason)
    ensures GateReason(DecideQualifier(p, reply, enabled, thr.generatorMin).reason)
  {
  }
}
