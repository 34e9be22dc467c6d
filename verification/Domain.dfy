/** The entities shared by every part of the pipeline (internal/domain). */
module Domain {
  datatype Option<+T> = None | Some(value: T)

  /** A canonical conversation identifier. */
  type Key = string

  datatype Role = Guest | Host | System

  datatype Message = Message(postID: string, body: string, createdAt: int, role: Role)

  /** The deduplicated guest messages of one debounced turn, oldest first. */
  datatype Turn = Turn(key: Key, messages: seq<Message>, lastPostID: string)

  /** The mapped snapshot of the platform's conversation. */
  datatype Conversation = Conversation(rawID: string, guestID: string, platform: string, thread: seq<Message>)

  /** Traffic Light codes. Other holds any string outside the table; Other("") is the zero value. */
  datatype Code = G1 | G2 | Y1 | Y2 | Y3 | Y4 | Y5 | Y6 | Y7 | R1 | R2 | X1 | Other(name: string)

  /** One entry of the open observation bag. */
  datatype Observation = Observation(key: string, value: string, valueType: string, confidence: real, source: string)

  datatype Entities = Entities(
    checkIn: Option<int>,
    checkOut: Option<int>,
    guestCount: Option<int>,
    pets: Option<bool>,
    vehicles: Option<int>,
    listingHint: Option<string>,
    additional: seq<Observation>)

  const NO_ENTITIES := Entities(None, None, None, None, None, None, [])

  datatype Classification = Classification(
    primary: Code,
    secondary: Option<Code>,
    confidence: real,
    entities: Entities,
    riskFlag: bool,
    riskReason: string)

  const NO_CLASSIFICATION := Classification(Other(""), None, 0.0, NO_ENTITIES, false, "")

  /** The audit record of one tool invocation; an empty error means the call succeeded. */
  datatype ToolCall = ToolCall(name: string, arguments: string, result: string, error: string)

  /** A generated reply. Of the six self-graded beats only sell_certainty is ever read. */
  datatype Reply = Reply(
    body: string,
    usedTools: seq<ToolCall>,
    sellCertainty: bool,
    confidence: real,
    abortReason: string,
    reflectionReason: string)

  /** What one run of the orchestrator is given. */
  datatype Input = Input(turn: Turn, conv: Conversation, listingID: string, now: int)

  datatype Decision = Decision(autoSend: bool, reason: string, detail: seq<string>)

  /** The newest index at which p holds, scanning down from the end. */
  function Newest<T>(xs: seq<T>, p: T -> bool): (r: Option<nat>)
    ensures r.None? ==> forall i :: 0 <= i < |xs| ==> !p(xs[i])
    ensures r.Some? ==> r.value < |xs| && p(xs[r.value])
    ensures r.Some? ==> forall i :: r.value < i < |xs| ==> !p(xs[i])
  {
    if xs == [] then None
    else if p(xs[|xs| - 1]) then Some(|xs| - 1)
    else Newest(xs[..|xs| - 1], p)
  }

  /** Length in bytes of the UTF-8 form, which is what Go's len counts. */
  function ByteLength(s: string): nat {
    if s == "" then 0
    else
      var u := s[0] as int;
      (if u < 0x80 then 1 else if u < 0x800 then 2 else if u < 0x1_0000 then 3 else 4) + ByteLength(s[1..])
  }

  /** One byte for each ASCII character, two to four for any other. */
  lemma {:induction false} BytesCountAscii(s: string)
    ensures |s| <= ByteLength(s) <= 4 * |s|
    ensures ByteLength(s) == |s| <==> forall i :: 0 <= i < |s| ==> s[i] as int < 0x80
  {
    if s != "" {
      BytesCountAscii(s[1..]);
      assert forall i :: 0 < i < |s| ==> s[i] == s[1..][i - 1];
    }
  }

  function Min(a: int, b: int): int {
    if a < b then a else b
  }

  function Max(a: int, b: int): int {
    if a < b then b else a
  }
}
