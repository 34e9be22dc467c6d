/** The observable effects of one run of the pipeline, in the order they happen. */
module Trace {
  import opened Domain
  import opened Memory
  import opened Sums

  // ----- the model conversation -----

  datatype ToolRequest = ToolRequest(id: string, name: string, arguments: string)

  /** One message of a chat transcript; prompt texts are not modelled. */
  datatype ChatMessage =
    | SystemPrompt
    | UserPrompt
    | Assistant(content: string, calls: seq<ToolRequest>)
    | ToolResult(callID: string, content: string)

  // ----- calls to the booking platform -----

  datatype HoldStatus = Inquiry | Reserved

  datatype GuestyRequest =
    | GetListing(listingID: string)
    | CheckAvailability(listingID: string, from: int, to: int)
    | ConversationHistory(conversationID: string, limit: int, beforePostID: string)
    | CreateReservation(listingID: string, checkIn: int, checkOut: int, guestCount: int, status: HoldStatus)

  datatype GuestyAnswer = Done(json: string) | Refused(error: string)

  // ----- events -----

  datatype Stage = Classifier | Qualifier | Generator | Critic | Summarizing

  /** A note's at is the clock reading its turn was taken with. */
  datatype Event =
    | ToggleRead(enabled: bool)
    | MemoryRead(key: Key, found: Record)
    | Chat(stage: Stage, transcript: seq<ChatMessage>)
    | GuestyCalled(request: GuestyRequest, answer: GuestyAnswer)
    | ClassificationStored(postID: string, cls: Classification)
    | ReplyStored(postID: string, stored: Reply)
    | NotePosted(key: Key, rawID: string, body: string, at: int, ok: bool)
    | EscalationRecorded(key: Key, postID: string, decision: Decision, cls: Classification, attached: Option<Reply>)
    | MemoryClosed(found: Record, closing: Closing, summarizer: Summarizer)
    | Completed(key: Key, postID: string)

  /** A model call other than the memory summary. */
  predicate CostlyChat(e: Event) {
    e.Chat? && !e.stage.Summarizing?
  }

  function Hit(p: Event -> bool): Event -> nat {
    (e: Event) => if p(e) then 1 else 0
  }

  /** How many effects of a log satisfy p. */
  function Count(log: seq<Event>, p: Event -> bool): nat {
    Sum(log, Hit(p))
  }

  lemma CountConcat(a: seq<Event>, b: seq<Event>, p: Event -> bool)
    ensures Count(a + b, p) == Count(a, p) + Count(b, p)
  {
    Concat(a, b, Hit(p));
  }

  lemma CountSnoc(log: seq<Event>, e: Event, p: Event -> bool)
    ensures Count(log + [e], p) == Count(log, p) + if p(e) then 1 else 0
  {
    Snoc(log, e, Hit(p));
  }

  lemma CountOne(e: Event, p: Event -> bool)
    ensures Count([e], p) == if p(e) then 1 else 0
  {
    One(e, Hit(p));
  }

  lemma CountNone(log: seq<Event>, p: Event -> bool)
    requires forall e :: e in log ==> !p(e)
    ensures Count(log, p) == 0
  {
    Nothing(log, Hit(p));
  }
}
