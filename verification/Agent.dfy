/** The generator's agent loop (internal/application/generatereply): bounded model calls,
    tools run against the booking platform, and an audit log the model cannot forge. */
module Agent {
  import opened Domain
  import opened Trace

  // ----- the untrusted world -----

  datatype AvailabilityArgs = AvailabilityArgs(listingID: string, from: string, to: string)
  datatype HistoryArgs = HistoryArgs(conversationID: string, limit: int, beforePostID: string)
  datatype HoldArgs = HoldArgs(listingID: string, checkIn: string, checkOut: string, guestCount: int, status: string)

  /** JSON and date parsing, as arbitrary partial functions. */
  datatype Wire = Wire(
    listingArgs: string -> Option<string>,
    availabilityArgs: string -> Option<AvailabilityArgs>,
    historyArgs: string -> Option<HistoryArgs>,
    holdArgs: string -> Option<HoldArgs>,
    parseDate: string -> Option<int>,
    parseReply: string -> Option<Reply>,
    errorJSON: (string, string) -> string)

  datatype ChatAnswer = ChatFailed(error: string) | NoChoices | Says(content: string, calls: seq<ToolRequest>)

  /** The n-th answer of the model and of the platform; nothing is assumed about either. */
  datatype Script = Script(chat: nat -> ChatAnswer, guesty: nat -> GuestyAnswer)

  // ----- one tool call -----

  /** The audit record, and the platform request that was made, if one was. */
  datatype ToolRun = ToolRun(rec: ToolCall, request: Option<GuestyRequest>)

  /** The record shows its error to the model as JSON. */
  ghost predicate ShowsError(w: Wire, rec: ToolCall) {
    exists code, detail :: rec.result == w.errorJSON(code, detail) && rec.error == code + ": " + detail
  }

  function Failed(w: Wire, rq: ToolRequest, code: string, detail: string): (rec: ToolCall)
    ensures rec.error != "" && ShowsError(w, rec)
  {
    ToolCall(rq.name, rq.arguments, w.errorJSON(code, detail), code + ": " + detail)
  }

  function Rejected(w: Wire, rq: ToolRequest, code: string, detail: string): ToolRun {
    ToolRun(Failed(w, rq, code, detail), None)
  }

  function Requested(w: Wire, rq: ToolRequest, request: GuestyRequest, answer: GuestyAnswer, code: string): ToolRun {
    match answer
    case Done(json) => ToolRun(ToolCall(rq.name, rq.arguments, json, ""), Some(request))
    case Refused(error) => ToolRun(Failed(w, rq, code, error), Some(request))
  }

  predicate WrongListing(got: string, expected: string) {
    expected != "" && got != expected
  }

  function NormalizeHoldStatus(s: string): Option<HoldStatus> {
    if s == "inquiry" then Some(Inquiry) else if s == "reserved" then Some(Reserved) else None
  }

  function RunGetListing(w: Wire, rq: ToolRequest, expected: string, answer: GuestyAnswer): ToolRun {
    match w.listingArgs(rq.arguments)
    case None => Rejected(w, rq, "invalid_arguments", "")
    case Some(listing) =>
      if WrongListing(listing, expected) then Rejected(w, rq, "invalid_listing_id", listing)
      else Requested(w, rq, GetListing(listing), answer, "get_listing_failed")
  }

  function RunCheckAvailability(w: Wire, rq: ToolRequest, expected: string, answer: GuestyAnswer): ToolRun {
    match w.availabilityArgs(rq.arguments)
    case None => Rejected(w, rq, "invalid_arguments", "")
    case Some(args) =>
      if WrongListing(args.listingID, expected) then Rejected(w, rq, "invalid_listing_id", args.listingID)
      else
        var from, to := w.parseDate(args.from), w.parseDate(args.to);
        if from.None? || to.None? then Rejected(w, rq, "invalid_dates", "")
        else Requested(w, rq, CheckAvailability(args.listingID, from.value, to.value), answer, "check_availability_failed")
  }

  function RunHistory(w: Wire, rq: ToolRequest, answer: GuestyAnswer): ToolRun {
    match w.historyArgs(rq.arguments)
    case None => Rejected(w, rq, "invalid_arguments", "")
    case Some(args) =>
      Requested(w, rq, ConversationHistory(args.conversationID, args.limit, args.beforePostID), answer, "history_failed")
  }

  function RunHoldReservation(w: Wire, rq: ToolRequest, expected: string, answer: GuestyAnswer): ToolRun {
    match w.holdArgs(rq.arguments)
    case None => Rejected(w, rq, "invalid_arguments", "")
    case Some(args) =>
      if WrongListing(args.listingID, expected) then Rejected(w, rq, "invalid_listing_id", args.listingID)
      else
        var cin, cout := w.parseDate(args.checkIn), w.parseDate(args.checkOut);
        if cin.None? || cout.None? then Rejected(w, rq, "invalid_dates", "")
        else match NormalizeHoldStatus(args.status)
          case None => Rejected(w, rq, "invalid_status", "status must be inquiry or reserved")
          case Some(status) =>
            Requested(w, rq, CreateReservation(args.listingID, cin.value, cout.value, args.guestCount, status),
                      answer, "hold_reservation_failed")
  }

  function RunTool(w: Wire, rq: ToolRequest, expected: string, answer: GuestyAnswer): ToolRun {
    if rq.name == "get_listing" then RunGetListing(w, rq, expected, answer)
    else if rq.name == "check_availability" then RunCheckAvailability(w, rq, expected, answer)
    else if rq.name == "get_conversation_history" then RunHistory(w, rq, answer)
    else if rq.name == "hold_reservation" then RunHoldReservation(w, rq, expected, answer)
    else Rejected(w, rq, "unknown_tool", rq.name)
  }

  /** The platform request a tool call stands for, read off its parsed arguments. */
  ghost predicate StandsFor(w: Wire, rq: ToolRequest, expected: string, request: GuestyRequest) {
    match request
    case GetListing(id) =>
      rq.name == "get_listing" && w.listingArgs(rq.arguments) == Some(id) && (expected == "" || id == expected)
    case CheckAvailability(id, from, to) =>
      && rq.name == "check_availability" && w.availabilityArgs(rq.arguments).Some?
      && var args := w.availabilityArgs(rq.arguments).value;
         && args.listingID == id && (expected == "" || id == expected)
         && w.parseDate(args.from) == Some(from) && w.parseDate(args.to) == Some(to)
    case ConversationHistory(id, limit, before) =>
      rq.name == "get_conversation_history" && w.historyArgs(rq.arguments) == Some(HistoryArgs(id, limit, before))
    case CreateReservation(id, checkIn, checkOut, guestCount, status) =>
      && rq.name == "hold_reservation" && w.holdArgs(rq.arguments).Some?
      && var args := w.holdArgs(rq.arguments).value;
         && args.listingID == id && (expected == "" || id == expected)
         && w.parseDate(args.checkIn) == Some(checkIn) && w.parseDate(args.checkOut) == Some(checkOut)
         && args.guestCount == guestCount && args.status == (if status.Inquiry? then "inquiry" else "reserved")
  }

  lemma AvailabilityRequestIff(w: Wire, rq: ToolRequest, expected: string, answer: GuestyAnswer, request: GuestyRequest)
    requires rq.name == "check_availability"
    ensures RunCheckAvailability(w, rq, expected, answer).request == Some(request) <==> StandsFor(w, rq, expected, request)
  {
    hide ShowsError;
  }

  lemma HoldRequestIff(w: Wire, rq: ToolRequest, expected: string, answer: GuestyAnswer, request: GuestyRequest)
    requires rq.name == "hold_reservation"
    ensures RunHoldReservation(w, rq, expected, answer).request == Some(request) <==> StandsFor(w, rq, expected, request)
  {
    hide ShowsError;
  }

  lemma ReadRequestIff(w: Wire, rq: ToolRequest, expected: string, answer: GuestyAnswer, request: GuestyRequest)
    requires rq.name != "check_availability" && rq.name != "hold_reservation"
    ensures RunTool(w, rq, expected, answer).request == Some(request) <==> StandsFor(w, rq, expected, request)
  {
    hide ShowsError, RunCheckAvailability, RunHoldReservation;
  }

  /** A tool call makes exactly the request it stands for, and none when it stands for none. */
  lemma RequestIff(w: Wire, rq: ToolRequest, expected: string, answer: GuestyAnswer, request: GuestyRequest)
    ensures RunTool(w, rq, expected, answer).request == Some(request) <==> StandsFor(w, rq, expected, request)
  {
    hide ShowsError, StandsFor, RunGetListing, RunHistory, RunCheckAvailability, RunHoldReservation;
    if rq.name == "check_availability" {
      AvailabilityRequestIff(w, rq, expected, answer, request);
    } else if rq.name == "hold_reservation" {
      HoldRequestIff(w, rq, expected, answer, request);
    } else {
      ReadRequestIff(w, rq, expected, answer, request);
    }
  }

  /** A tool call succeeds exactly when its request was made and answered, with that answer as its
      result; any other result is an error the model is shown. */
  lemma ResultIff(w: Wire, rq: ToolRequest, expected: string, answer: GuestyAnswer)
    ensures
      var run := RunTool(w, rq, expected, answer);
      && (run.rec.error == "" <==> run.request.Some? && answer.Done?)
      && (run.rec.error == "" ==> run.rec.result == answer.json)
      && (run.rec.error != "" ==> ShowsError(w, run.rec))
  {
    hide ShowsError;
  }

  // ----- the loop, as a function -----

  /** The loop's variables: transcript, audit log, effects so far, and how many answers of
      each kind have been consumed. */
  datatype State = State(transcript: seq<ChatMessage>, toolLog: seq<ToolCall>, events: seq<Event>, chats: nat, calls: nat)

  /** Events of the run, and the reply; None is an error return. */
  datatype Outcome = Outcome(events: seq<Event>, reply: Option<Reply>)

  const START := State([SystemPrompt, UserPrompt], [], [], 0, 0)

  function AfterTool(w: Wire, o: Script, expected: string, st: State, rq: ToolRequest): State {
    var answer := o.guesty(st.calls);
    var run := RunTool(w, rq, expected, answer);
    State(
      st.transcript + [ToolResult(rq.id, run.rec.result)],
      st.toolLog + [run.rec],
      st.events + (if run.request.Some? then [GuestyCalled(run.request.value, answer)] else []),
      st.chats,
      st.calls + (if run.request.Some? then 1 else 0))
  }

  function AfterTools(w: Wire, o: Script, expected: string, st: State, rqs: seq<ToolRequest>): State {
    if rqs == [] then st
    else AfterTool(w, o, expected, AfterTools(w, o, expected, st, rqs[..|rqs| - 1]), rqs[|rqs| - 1])
  }

  /** The state once the model has been asked with the current transcript. */
  function Asked(st: State): State {
    st.(events := st.events + [Chat(Generator, st.transcript)], chats := st.chats + 1)
  }

  function Heard(st: State, content: string, calls: seq<ToolRequest>): State {
    st.(transcript := st.transcript + [Assistant(content, calls)])
  }

  function ParseFinal(w: Wire, content: string, toolLog: seq<ToolCall>): Option<Reply> {
    match w.parseReply(content)
    case None => None
    case Some(r) => Some(r.(usedTools := toolLog))
  }

  function Aborted(reason: string, toolLog: seq<ToolCall>): Reply {
    Reply("", toolLog, false, 0.0, "max_turns", reason)
  }

  function Reflect(w: Wire, o: Script, st: State): Outcome {
    var st' := Asked(st.(transcript := st.transcript + [SystemPrompt]));
    var reply := match o.chat(st.chats)
      case ChatFailed(error) => Aborted("reflection call failed: " + error, st.toolLog)
      case NoChoices => Aborted("reflection returned no choices", st.toolLog)
      case Says(content, _) =>
        match w.parseReply(content)
        case None => Aborted("reflection unparseable: " + content, st.toolLog)
        case Some(r) => r.(abortReason := "max_turns", usedTools := st.toolLog);
    Outcome(st'.events, Some(reply))
  }

  function Turns(w: Wire, o: Script, expected: string, left: nat, st: State): Outcome
    decreases left
  {
    if left == 0 then Reflect(w, o, st)
    else
      var st' := Asked(st);
      match o.chat(st.chats)
      case ChatFailed(_) => Outcome(st'.events, None)
      case NoChoices => Outcome(st'.events, None)
      case Says(content, calls) =>
        if calls == [] then Outcome(st'.events, ParseFinal(w, content, st'.toolLog))
        else Turns(w, o, expected, left - 1, AfterTools(w, o, expected, Heard(st', content, calls), calls))
  }

  /** A negative budget runs no turns, like the source's range loop. */
  function Budget(maxTurns: int): nat {
    if maxTurns < 0 then 0 else maxTurns
  }

  function Generation(w: Wire, o: Script, expected: string, maxTurns: int): Outcome {
    Turns(w, o, expected, Budget(maxTurns), START)
  }

  // ----- the loop, as the source runs it -----

  method Generate(w: Wire, o: Script, expected: string, maxTurns: int) returns (events: seq<Event>, reply: Option<Reply>)
    ensures Outcome(events, reply) == Generation(w, o, expected, maxTurns)
  {
    hide RunTool, Reflect;
    var messages := [SystemPrompt, UserPrompt];
    var toolLog: seq<ToolCall> := [];
    var chats, calls := 0, 0;
    events := [];
    var n := 0;
    while n < maxTurns
      invariant 0 <= n <= Budget(maxTurns)
      invariant Generation(w, o, expected, maxTurns)
                == Turns(w, o, expected, Budget(maxTurns) - n, State(messages, toolLog, events, chats, calls))
    {
      var answer := o.chat(chats);
      events := events + [Chat(Generator, messages)];
      chats := chats + 1;
      if answer.ChatFailed? || answer.NoChoices? {
        return events, None;
      }
      messages := messages + [Assistant(answer.content, answer.calls)];
      if |answer.calls| == 0 {
        return events, ParseFinal(w, answer.content, toolLog);
      }
      ghost var before := State(messages, toolLog, events, chats, calls);
      var i := 0;
      while i < |answer.calls|
        invariant 0 <= i <= |answer.calls|
        invariant State(messages, toolLog, events, chats, calls) == AfterTools(w, o, expected, before, answer.calls[..i])
      {
        var tc := answer.calls[i];
        assert answer.calls[..i + 1][..i] == answer.calls[..i];
        var result := o.guesty(calls);
        var run := RunTool(w, tc, expected, result);
        if run.request.Some? {
          events := events + [GuestyCalled(run.request.value, result)];
          calls := calls + 1;
        }
        toolLog := toolLog + [run.rec];
        messages := messages + [ToolResult(tc.id, run.rec.result)];
        i := i + 1;
      }
      assert answer.calls[..i] == answer.calls;
      n := n + 1;
    }
    var r: Reply;
    events, r := ReflectOnFailure(w, o, State(messages, toolLog, events, chats, calls));
    return events, Some(r);
  }

  /** The one call after an exhausted budget; whatever comes back is marked as aborted. */
  method ReflectOnFailure(w: Wire, o: Script, st: State) returns (events: seq<Event>, reply: Reply)
    ensures Outcome(events, Some(reply)) == Reflect(w, o, st)
    ensures reply.abortReason == "max_turns" && reply.usedTools == st.toolLog
  {
    var messages := st.transcript + [SystemPrompt];
    var answer := o.chat(st.chats);
    events := st.events + [Chat(Generator, messages)];
    match answer {
      case ChatFailed(error) => reply := Aborted("reflection call failed: " + error, st.toolLog);
      case NoChoices => reply := Aborted("reflection returned no choices", st.toolLog);
      case Says(content, _) =>
        match w.parseReply(content) {
          case None => reply := Aborted("reflection unparseable: " + content, st.toolLog);
          case Some(parsed) => reply := parsed.(abortReason := "max_turns", usedTools := st.toolLog);
        }
    }
  }

  // ----- what every run guarantees -----

  /** Tool calls still unanswered after reading a transcript; None when it answered a call that
      was not next, or spoke while calls were open. */
  function Open(t: seq<ChatMessage>): Option<seq<ToolRequest>> {
    if t == [] then Some([])
    else match Open(t[..|t| - 1])
      case None => None
      case Some(open) =>
        match t[|t| - 1]
        case ToolResult(id, _) => if open != [] && open[0].id == id then Some(open[1..]) else None
        case Assistant(_, calls) => if open == [] then Some(calls) else None
        case _ => if open == [] then Some([]) else None
  }

  lemma OpenSnoc(t: seq<ChatMessage>, m: ChatMessage)
    ensures Open(t + [m]) ==
            match Open(t)
            case None => None
            case Some(open) =>
              match m
              case ToolResult(id, _) => if open != [] && open[0].id == id then Some(open[1..]) else None
              case Assistant(_, calls) => if open == [] then Some(calls) else None
              case _ => if open == [] then Some([]) else None
  {
    assert (t + [m])[..|t|] == t;
  }

  /** Tool requests of a transcript, in order. */
  function Calls(t: seq<ChatMessage>): seq<ToolRequest> {
    if t == [] then []
    else Calls(t[..|t| - 1]) + (if t[|t| - 1].Assistant? then t[|t| - 1].calls else [])
  }

  lemma CallsSnoc(t: seq<ChatMessage>, m: ChatMessage)
    ensures Calls(t + [m]) == Calls(t) + (if m.Assistant? then m.calls else [])
  {
    assert (t + [m])[..|t|] == t;
  }

  /** rec audits rq: same tool, same arguments, and if it claims success the platform really
      answered that request during the run, for the expected listing. */
  ghost predicate Audits(rec: ToolCall, rq: ToolRequest, expected: string, events: seq<Event>) {
    && rec.name == rq.name && rec.arguments == rq.arguments
    && (rec.error == "" && rec.name == "check_availability" ==> exists e :: e in events && AvailabilityConfirmed(e, expected))
    && (rec.error == "" && rec.name == "hold_reservation" ==> exists e :: e in events && HoldConfirmed(e, expected))
  }

  predicate AvailabilityConfirmed(e: Event, expected: string) {
    && e.GuestyCalled? && e.request.CheckAvailability? && e.answer.Done?
    && (expected != "" ==> e.request.listingID == expected)
  }

  predicate HoldConfirmed(e: Event, expected: string) {
    && e.GuestyCalled? && e.request.CreateReservation? && e.answer.Done?
    && (expected != "" ==> e.request.listingID == expected)
  }

  ghost predicate Audited(st: State, expected: string, requests: seq<ToolRequest>) {
    && |st.toolLog| <= |requests|
    && forall i :: 0 <= i < |st.toolLog| ==> Audits(st.toolLog[i], requests[i], expected, st.events)
  }

  predicate QuietEvent(e: Event) {
    (e.Chat? && e.stage.Generator? && Open(e.transcript) == Some([])) || e.GuestyCalled?
  }

  /** Holds between turns: nothing is open, every call asked for so far has been audited, and
      only well-answered transcripts were ever sent. */
  ghost predicate Settled(st: State, expected: string) {
    && Open(st.transcript) == Some([])
    && |st.toolLog| == |Calls(st.transcript)| && Audited(st, expected, Calls(st.transcript))
    && forall e :: e in st.events ==> QuietEvent(e)
  }

  lemma ToolRunAudits(w: Wire, rq: ToolRequest, expected: string, answer: GuestyAnswer)
    ensures
      var run := RunTool(w, rq, expected, answer);
      Audits(run.rec, rq, expected, if run.request.Some? then [GuestyCalled(run.request.value, answer)] else [])
  {
    var run := RunTool(w, rq, expected, answer);
    var events := if run.request.Some? then [GuestyCalled(run.request.value, answer)] else [];
    if run.request.Some? {
      assert GuestyCalled(run.request.value, answer) in events;
    }
  }

  lemma AuditsMore(rec: ToolCall, rq: ToolRequest, expected: string, events: seq<Event>, a: seq<Event>, b: seq<Event>)
    requires Audits(rec, rq, expected, events)
    ensures Audits(rec, rq, expected, a + events + b)
  {
    assert forall e :: e in events ==> e in a + events + b;
  }

  /** Within a turn: i of the turn's calls have been answered. */
  ghost predicate MidTurn(st: State, expected: string, asked: seq<ToolRequest>, turn: seq<ToolRequest>, i: nat) {
    && i <= |turn|
    && Open(st.transcript) == Some(turn[i..])
    && Calls(st.transcript) == asked + turn
    && |st.toolLog| == |asked| + i && Audited(st, expected, asked + turn)
    && forall e :: e in st.events ==> QuietEvent(e)
  }

  lemma OneToolKeepsMidTurn(w: Wire, o: Script, expected: string, st: State, asked: seq<ToolRequest>, turn: seq<ToolRequest>, i: nat)
    requires MidTurn(st, expected, asked, turn, i) && i < |turn|
    ensures MidTurn(AfterTool(w, o, expected, st, turn[i]), expected, asked, turn, i + 1)
  {
    hide RunTool, Audits;
    var rq := turn[i];
    var st' := AfterTool(w, o, expected, st, rq);
    var answer := o.guesty(st.calls);
    var run := RunTool(w, rq, expected, answer);
    var called := if run.request.Some? then [GuestyCalled(run.request.value, answer)] else [];
    OpenSnoc(st.transcript, ToolResult(rq.id, run.rec.result));
    CallsSnoc(st.transcript, ToolResult(rq.id, run.rec.result));
    assert asked + turn + [] == asked + turn;
    ToolRunAudits(w, rq, expected, answer);
    AuditsMore(run.rec, rq, expected, called, st.events, []);
    assert st.events + called + [] == st'.events;
    forall k | 0 <= k < |st'.toolLog| ensures Audits(st'.toolLog[k], (asked + turn)[k], expected, st'.events) {
      if k < |st.toolLog| {
        AuditsMore(st.toolLog[k], (asked + turn)[k], expected, st.events, [], called);
        assert [] + st.events + called == st'.events;
      }
    }
  }

  lemma {:induction false} ToolsKeepMidTurn(w: Wire, o: Script, expected: string, st: State, asked: seq<ToolRequest>, turn: seq<ToolRequest>, i: nat)
    requires MidTurn(st, expected, asked, turn, 0) && i <= |turn|
    ensures MidTurn(AfterTools(w, o, expected, st, turn[..i]), expected, asked, turn, i)
  {
    if i == 0 {
      assert turn[..0] == [];
    } else {
      ToolsKeepMidTurn(w, o, expected, st, asked, turn, i - 1);
      assert turn[..i][..i - 1] == turn[..i - 1];
      OneToolKeepsMidTurn(w, o, expected, AfterTools(w, o, expected, st, turn[..i - 1]), asked, turn, i - 1);
    }
  }

  lemma AskingStaysSettled(st: State, expected: string)
    requires Settled(st, expected)
    ensures Settled(Asked(st), expected)
  {
    hide Audits;
    forall k | 0 <= k < |st.toolLog| ensures Audits(st.toolLog[k], Calls(st.transcript)[k], expected, Asked(st).events) {
      AuditsMore(st.toolLog[k], Calls(st.transcript)[k], expected, st.events, [], [Chat(Generator, st.transcript)]);
      assert [] + st.events + [Chat(Generator, st.transcript)] == Asked(st).events;
    }
  }

  lemma WholeTurnStaysSettled(w: Wire, o: Script, expected: string, st: State, content: string, calls: seq<ToolRequest>)
    requires Settled(st, expected)
    ensures Settled(AfterTools(w, o, expected, Heard(st, content, calls), calls), expected)
  {
    hide Audits;
    var h := Heard(st, content, calls);
    OpenSnoc(st.transcript, Assistant(content, calls));
    CallsSnoc(st.transcript, Assistant(content, calls));
    assert calls[0..] == calls && calls[..|calls|] == calls && calls[|calls|..] == [];
    assert MidTurn(h, expected, Calls(st.transcript), calls, 0);
    ToolsKeepMidTurn(w, o, expected, h, Calls(st.transcript), calls, |calls|);
  }

  /** The transcript the model last saw. */
  function LastTranscript(events: seq<Event>): seq<ChatMessage> {
    if events != [] && events[|events| - 1].Chat? then events[|events| - 1].transcript else []
  }

  /** Whatever the model and the platform answer: every transcript sent has its tool calls
      answered once and in order; the reply's used_tools audits exactly the calls the model was
      shown, in order; and a success in it is backed by a platform call of this run. */
  ghost predicate Grounded(out: Outcome, expected: string) {
    && (forall e :: e in out.events ==> QuietEvent(e))
    && (out.reply.Some? ==> AuditedReply(out.reply.value.usedTools, Calls(LastTranscript(out.events)), expected, out.events))
  }

  ghost predicate AuditedReply(used: seq<ToolCall>, requests: seq<ToolRequest>, expected: string, events: seq<Event>) {
    && |used| == |requests|
    && forall i :: 0 <= i < |used| ==> Audits(used[i], requests[i], expected, events)
  }

  lemma SettledReplyIsAudited(st: State, expected: string, reply: Reply)
    requires Settled(Asked(st), expected) && reply.usedTools == st.toolLog
    ensures Grounded(Outcome(Asked(st).events, Some(reply)), expected)
  {
    hide Audits;
  }

  lemma {:induction false} TurnsAreGrounded(w: Wire, o: Script, expected: string, left: nat, st: State)
    requires Settled(st, expected)
    ensures Grounded(Turns(w, o, expected, left, st), expected)
    decreases left
  {
    hide Audits, RunTool;
    if left == 0 {
      var st' := st.(transcript := st.transcript + [SystemPrompt]);
      OpenSnoc(st.transcript, SystemPrompt);
      CallsSnoc(st.transcript, SystemPrompt);
      assert Calls(st'.transcript) == Calls(st.transcript);
      AskingStaysSettled(st', expected);
      SettledReplyIsAudited(st', expected, Reflect(w, o, st).reply.value);
    } else {
      var st' := Asked(st);
      AskingStaysSettled(st, expected);
      match o.chat(st.chats) {
        case ChatFailed(_) =>
        case NoChoices =>
        case Says(content, calls) =>
          if calls == [] {
            if w.parseReply(content).Some? {
              SettledReplyIsAudited(st, expected, ParseFinal(w, content, st'.toolLog).value);
            }
          } else {
            WholeTurnStaysSettled(w, o, expected, st', content, calls);
            TurnsAreGrounded(w, o, expected, left - 1, AfterTools(w, o, expected, Heard(st', content, calls), calls));
          }
      }
    }
  }

  lemma GenerationIsGrounded(w: Wire, o: Script, expected: string, maxTurns: int)
    ensures Grounded(Generation(w, o, expected, maxTurns), expected)
  {
    OpenSnoc([], SystemPrompt);
    OpenSnoc([SystemPrompt], UserPrompt);
    CallsSnoc([], SystemPrompt);
    CallsSnoc([SystemPrompt], UserPrompt);
    assert [] + [SystemPrompt] == [SystemPrompt] && [SystemPrompt] + [UserPrompt] == START.transcript;
    TurnsAreGrounded(w, o, expected, Budget(maxTurns), START);
  }

  // ----- the spend bound -----

  predicate IsChat(e: Event) {
    e.Chat?
  }

  lemma {:induction false} ToolsMakeNoChats(w: Wire, o: Script, expected: string, st: State, rqs: seq<ToolRequest>)
    ensures Count(AfterTools(w, o, expected, st, rqs).events, IsChat) == Count(st.events, IsChat)
    ensures AfterTools(w, o, expected, st, rqs).chats == st.chats
  {
    hide RunTool;
    if rqs != [] {
      var init, rq := rqs[..|rqs| - 1], rqs[|rqs| - 1];
      ToolsMakeNoChats(w, o, expected, st, init);
      var before := AfterTools(w, o, expected, st, init);
      var answer := o.guesty(before.calls);
      var run := RunTool(w, rq, expected, answer);
      if run.request.Some? {
        CountSnoc(before.events, GuestyCalled(run.request.value, answer), IsChat);
      } else {
        assert before.events + [] == before.events;
      }
      hide Count;
    }
  }

  lemma AskingCountsOne(st: State)
    ensures Count(Asked(st).events, IsChat) == Count(st.events, IsChat) + 1
  {
    CountSnoc(st.events, Chat(Generator, st.transcript), IsChat);
  }

  lemma {:induction false} TurnsAreBounded(w: Wire, o: Script, expected: string, left: nat, st: State)
    ensures Count(Turns(w, o, expected, left, st).events, IsChat) <= Count(st.events, IsChat) + left + 1
    decreases left
  {
    hide RunTool;
    AskingCountsOne(st);
    if left == 0 {
      AskingCountsOne(st.(transcript := st.transcript + [SystemPrompt]));
    } else {
      match o.chat(st.chats) {
        case ChatFailed(_) =>
        case NoChoices =>
        case Says(content, calls) =>
          if calls != [] {
            var next := AfterTools(w, o, expected, Heard(Asked(st), content, calls), calls);
            ToolsMakeNoChats(w, o, expected, Heard(Asked(st), content, calls), calls);
            TurnsAreBounded(w, o, expected, left - 1, next);
          }
      }
    }
  }

  /** At most maxTurns + 1 model calls, whatever they answer. */
  lemma GenerationIsBounded(w: Wire, o: Script, expected: string, maxTurns: int)
    ensures Count(Generation(w, o, expected, maxTurns).events, IsChat) <= Budget(maxTurns) + 1
  {
    TurnsAreBounded(w, o, expected, Budget(maxTurns), START);
  }

  // ----- how a run ends -----

  /** The reply, if any, is what the content parses to; only used_tools is overwritten. */
  ghost predicate FinalAnswer(w: Wire, content: string, reply: Option<Reply>) {
    match w.parseReply(content)
    case None => reply.None?
    case Some(r) => reply.Some? && reply.value == r.(usedTools := reply.value.usedTools)
  }

  /** A run that starts with its from-th model call and has left turns: it goes on while the model
      asks for tools; it ends with the model's own final answer, with an error, or, on an exhausted
      budget, with a reply marked as aborted. */
  ghost predicate EndsProperly(w: Wire, o: Script, out: Outcome, from: nat, left: nat) {
    var n := Count(out.events, IsChat);
    && from < n <= from + left + 1
    && (forall m :: from <= m < n - 1 ==> o.chat(m).Says? && o.chat(m).calls != [])
    && (n == from + left + 1 ==> out.reply.Some? && out.reply.value.abortReason == "max_turns")
    && (n <= from + left ==>
          match o.chat(n - 1)
          case Says(content, calls) => calls == [] && FinalAnswer(w, content, out.reply)
          case _ => out.reply.None?)
  }

  lemma {:induction false} TurnsEndProperly(w: Wire, o: Script, expected: string, left: nat, st: State)
    requires st.chats == Count(st.events, IsChat)
    ensures EndsProperly(w, o, Turns(w, o, expected, left, st), st.chats, left)
    decreases left
  {
    hide RunTool, Count;
    AskingCountsOne(st);
    if left == 0 {
      AskingCountsOne(st.(transcript := st.transcript + [SystemPrompt]));
    } else {
      match o.chat(st.chats) {
        case ChatFailed(_) =>
        case NoChoices =>
        case Says(content, calls) =>
          if calls != [] {
            var heard := Heard(Asked(st), content, calls);
            ToolsMakeNoChats(w, o, expected, heard, calls);
            TurnsEndProperly(w, o, expected, left - 1, AfterTools(w, o, expected, heard, calls));
          }
      }
    }
  }

  /** Every run, for every script: an exhausted budget always ends aborted, and a run within its
      budget ends with the model's own last answer. */
  lemma GenerationEndsProperly(w: Wire, o: Script, expected: string, maxTurns: int)
    ensures EndsProperly(w, o, Generation(w, o, expected, maxTurns), 0, Budget(maxTurns))
  {
    TurnsEndProperly(w, o, expected, Budget(maxTurns), START);
  }

  // ----- what the model is shown -----

  /** The tool results of a transcript, in order. */
  function Shown(t: seq<ChatMessage>): seq<string> {
    if t == [] then []
    else Shown(t[..|t| - 1]) + (if t[|t| - 1].ToolResult? then [t[|t| - 1].content] else [])
  }

  function Results(log: seq<ToolCall>): seq<string> {
    if log == [] then [] else Results(log[..|log| - 1]) + [log[|log| - 1].result]
  }

  lemma ShownSnoc(t: seq<ChatMessage>, m: ChatMessage)
    ensures Shown(t + [m]) == Shown(t) + (if m.ToolResult? then [m.content] else [])
  {
    assert (t + [m])[..|t|] == t;
  }

  lemma ResultsSnoc(log: seq<ToolCall>, rec: ToolCall)
    ensures Results(log + [rec]) == Results(log) + [rec.result]
  {
    assert (log + [rec])[..|log|] == log;
  }

  lemma {:induction false} ToolsAreShown(w: Wire, o: Script, expected: string, st: State, rqs: seq<ToolRequest>)
    requires Shown(st.transcript) == Results(st.toolLog)
    ensures
      var st' := AfterTools(w, o, expected, st, rqs);
      Shown(st'.transcript) == Results(st'.toolLog)
  {
    hide RunTool;
    if rqs != [] {
      var init, rq := rqs[..|rqs| - 1], rqs[|rqs| - 1];
      ToolsAreShown(w, o, expected, st, init);
      var before := AfterTools(w, o, expected, st, init);
      var run := RunTool(w, rq, expected, o.guesty(before.calls));
      ShownSnoc(before.transcript, ToolResult(rq.id, run.rec.result));
      ResultsSnoc(before.toolLog, run.rec);
      hide Shown, Results;
    }
  }

  lemma LastIsAsked(st: State)
    ensures LastTranscript(Asked(st).events) == st.transcript
  {
  }

  lemma {:induction false} TurnsShowResults(w: Wire, o: Script, expected: string, left: nat, st: State)
    requires Shown(st.transcript) == Results(st.toolLog)
    ensures
      var out := Turns(w, o, expected, left, st);
      out.reply.Some? ==> Results(out.reply.value.usedTools) == Shown(LastTranscript(out.events))
    decreases left
  {
    hide AfterTools, Results, Shown, LastTranscript, Asked;
    assert Shown(st.transcript) + [] == Shown(st.transcript);
    if left == 0 {
      ShownSnoc(st.transcript, SystemPrompt);
      LastIsAsked(st.(transcript := st.transcript + [SystemPrompt]));
    } else {
      LastIsAsked(st);
      AskingKeeps(st);
      match o.chat(st.chats) {
        case ChatFailed(_) =>
        case NoChoices =>
        case Says(content, calls) =>
          if calls != [] {
            var heard := Heard(Asked(st), content, calls);
            ShownSnoc(st.transcript, Assistant(content, calls));
            ToolsAreShown(w, o, expected, heard, calls);
            TurnsShowResults(w, o, expected, left - 1, AfterTools(w, o, expected, heard, calls));
          }
      }
    }
  }

  lemma AskingKeeps(st: State)
    ensures Asked(st).transcript == st.transcript && Asked(st).toolLog == st.toolLog
  {
  }

  /** The results in used_tools are exactly the results the model was shown, in order. */
  lemma ModelSawTheResults(w: Wire, o: Script, expected: string, maxTurns: int)
    ensures
      var out := Generation(w, o, expected, maxTurns);
      out.reply.Some? ==> Results(out.reply.value.usedTools) == Shown(LastTranscript(out.events))
  {
    ShownSnoc([], SystemPrompt);
    ShownSnoc([SystemPrompt], UserPrompt);
    assert [] + [SystemPrompt] == [SystemPrompt] && [SystemPrompt] + [UserPrompt] == START.transcript;
    TurnsShowResults(w, o, expected, Budget(maxTurns), START);
  }
}
