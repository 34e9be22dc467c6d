/** The per-conversation memory record and the way a closed turn is written into it
    (internal/domain/memory.go, applyMemoryUpdate and foldOverflow in
    internal/application/processinquiry/usecase.go). */
module Memory {
  import opened Domain
  import opened EntityMerge
  import opened ThreadMerge

  datatype Record = Record(
    key: Key,
    guestID: string,
    platform: string,
    thread: seq<Message>,
    lastSummary: string,
    lastSummaryPostID: string,
    entities: Entities,
    lastClassification: Option<Classification>,
    lastAutoSendAt: Option<int>,
    lastEscalationAt: Option<int>,
    updatedAt: int)

  /** What a store returns for an unknown conversation. */
  const EMPTY_RECORD := Record("", "", "", [], "", "", NO_ENTITIES, None, None, None, 0)

  datatype Limits = Limits(cap: int, keep: int)

  /** The summarizer as the fold sees it: not wired, failing, or answering. */
  datatype Summarizer = Absent | Failed | Answers(text: string)

  /** One closed turn. */
  datatype Closing = Closing(input: Input, cls: Classification, reply: Option<Reply>, sent: bool)

  // ----- specification -----

  function Appended(thread: seq<Message>, m: Message): seq<Message> {
    if m.postID != "" && m.postID in PostIDs(thread) then thread else thread + [m]
  }

  function AppendAll(thread: seq<Message>, ms: seq<Message>): seq<Message> {
    if ms == [] then thread
    else Appended(AppendAll(thread, ms[..|ms| - 1]), ms[|ms| - 1])
  }

  function BotMessage(c: Closing): Message
    requires c.reply.Some?
  {
    Message("bot_" + c.input.turn.lastPostID, c.reply.value.body, c.input.now, Host)
  }

  /** The thread after the turn's messages and, when it was posted, the reply. */
  function Extended(thread: seq<Message>, c: Closing): seq<Message> {
    var t := AppendAll(thread, c.input.turn.messages);
    if c.sent && c.reply.Some? then Appended(t, BotMessage(c)) else t
  }

  predicate Overflows(lim: Limits, thread: seq<Message>) {
    lim.cap > 0 && lim.keep > 0 && |thread| > lim.cap && |thread| - lim.keep > 0
  }

  function Folded(lim: Limits, r: Record, s: Summarizer): Record {
    if !Overflows(lim, r.thread) then r
    else
      var split := |r.thread| - lim.keep;
      var kept := r.(thread := r.thread[split..]);
      if s.Answers? then kept.(lastSummary := s.text, lastSummaryPostID := r.thread[split - 1].postID)
      else kept
  }

  /** The record after a closed turn, before folding. */
  function Noted(r: Record, c: Closing): Record {
    var known := c.cls.primary != Other("");
    Record(
      c.input.turn.key,
      if c.input.conv.guestID != "" then c.input.conv.guestID else r.guestID,
      if c.input.conv.platform != "" then c.input.conv.platform else r.platform,
      Extended(r.thread, c),
      r.lastSummary,
      r.lastSummaryPostID,
      if known then MergeEntities(r.entities, c.cls.entities) else r.entities,
      if known then Some(c.cls) else r.lastClassification,
      if c.sent then Some(c.input.now) else r.lastAutoSendAt,
      if c.sent then r.lastEscalationAt else Some(c.input.now),
      r.updatedAt)
  }

  function Closed(lim: Limits, r: Record, c: Closing, s: Summarizer): Record {
    Folded(lim, Noted(r, c), s).(updatedAt := c.input.now)
  }

  // ----- the record as the source updates it in place -----

  class MemoryRecord {
    var key: Key
    var guestID: string
    var platform: string
    var thread: seq<Message>
    var lastSummary: string
    var lastSummaryPostID: string
    var entities: Entities
    var lastClassification: Option<Classification>
    var lastAutoSendAt: Option<int>
    var lastEscalationAt: Option<int>
    var updatedAt: int

    function Snapshot(): Record
      reads this
    {
      Record(key, guestID, platform, thread, lastSummary, lastSummaryPostID, entities,
             lastClassification, lastAutoSendAt, lastEscalationAt, updatedAt)
    }

    constructor (r: Record)
      ensures Snapshot() == r
    {
      key, guestID, platform, thread := r.key, r.guestID, r.platform, r.thread;
      lastSummary, lastSummaryPostID, entities := r.lastSummary, r.lastSummaryPostID, r.entities;
      lastClassification, lastAutoSendAt := r.lastClassification, r.lastAutoSendAt;
      lastEscalationAt, updatedAt := r.lastEscalationAt, r.updatedAt;
    }

    method AppendMessage(m: Message)
      modifies this
      ensures Snapshot() == old(Snapshot()).(thread := Appended(old(thread), m))
    {
      if m.postID != "" {
        var i := 0;
        while i < |thread|
          invariant 0 <= i <= |thread|
          invariant m.postID !in PostIDs(thread[..i])
          invariant Snapshot() == old(Snapshot())
        {
          if thread[i].postID == m.postID {
            MemberID(thread, i);
            return;
          }
          assert thread[..i + 1] == thread[..i] + [thread[i]];
          PostIDsSnoc(thread[..i], thread[i]);
          i := i + 1;
        }
        assert thread[..i] == thread;
      }
      thread := thread + [m];
    }

    method FoldOverflow(lim: Limits, s: Summarizer)
      modifies this
      ensures Snapshot() == Folded(lim, old(Snapshot()), s)
    {
      if lim.cap <= 0 || lim.keep <= 0 || |thread| <= lim.cap {
        return;
      }
      var split := |thread| - lim.keep;
      if split <= 0 {
        return;
      }
      var older := thread[..split];
      if s.Absent? || s.Failed? {
        thread := thread[split..];
        return;
      }
      lastSummary := s.text;
      lastSummaryPostID := older[|older| - 1].postID;
      thread := thread[split..];
    }

    method ApplyUpdate(lim: Limits, c: Closing, s: Summarizer)
      modifies this
      ensures Snapshot() == Closed(lim, old(Snapshot()), c, s)
    {
      NoteTurn(c);
      FoldOverflow(lim, s);
      updatedAt := c.input.now;
    }

    method NoteTurn(c: Closing)
      modifies this
      ensures Snapshot() == Noted(old(Snapshot()), c)
    {
      hide MergeEntities, AppendAll, Appended;
      key := c.input.turn.key;
      if c.input.conv.guestID != "" {
        guestID := c.input.conv.guestID;
      }
      if c.input.conv.platform != "" {
        platform := c.input.conv.platform;
      }
      AppendTurn(c.input.turn.messages);
      if c.sent && c.reply.Some? {
        AppendMessage(BotMessage(c));
      }
      if c.cls.primary != Other("") {
        entities := MergeEntities(entities, c.cls.entities);
        lastClassification := Some(c.cls);
      }
      if c.sent {
        lastAutoSendAt := Some(c.input.now);
      } else {
        lastEscalationAt := Some(c.input.now);
      }
    }

    method AppendTurn(ms: seq<Message>)
      modifies this
      ensures Snapshot() == old(Snapshot()).(thread := AppendAll(old(thread), ms))
    {
      var i := 0;
      while i < |ms|
        invariant 0 <= i <= |ms|
        invariant Snapshot() == old(Snapshot()).(thread := AppendAll(old(thread), ms[..i]))
      {
        assert ms[..i + 1][..i] == ms[..i];
        AppendMessage(ms[i]);
        i := i + 1;
      }
      assert ms[..i] == ms;
    }
  }

  // ----- appending -----

  /** Appending never rewrites the thread and never repeats an id. */
  lemma {:induction false} AppendAllExtends(thread: seq<Message>, ms: seq<Message>)
    requires DistinctIDs(thread)
    ensures thread <= AppendAll(thread, ms) && DistinctIDs(AppendAll(thread, ms))
    ensures PostIDs(AppendAll(thread, ms)) == PostIDs(thread) + PostIDs(ms)
  {
    if ms != [] {
      var before, m := ms[..|ms| - 1], ms[|ms| - 1];
      AppendAllExtends(thread, before);
      AppendOne(AppendAll(thread, before), m);
    }
  }

  lemma AppendOne(thread: seq<Message>, m: Message)
    requires DistinctIDs(thread)
    ensures thread <= Appended(thread, m) && DistinctIDs(Appended(thread, m))
    ensures PostIDs(Appended(thread, m)) == PostIDs(thread) + (if m.postID != "" then {m.postID} else {})
  {
    DistinctSnoc(thread, m);
    PostIDsSnoc(thread, m);
  }

  lemma ExtendedIsLonger(thread: seq<Message>, c: Closing)
    requires DistinctIDs(thread)
    ensures thread <= Extended(thread, c) && DistinctIDs(Extended(thread, c))
    ensures PostIDs(c.input.turn.messages) <= PostIDs(Extended(thread, c))
  {
    AppendAllExtends(thread, c.input.turn.messages);
    if c.sent && c.reply.Some? {
      AppendOne(AppendAll(thread, c.input.turn.messages), BotMessage(c));
    }
  }

  lemma {:induction false} AppendAllMembers(thread: seq<Message>, ms: seq<Message>, m: Message)
    requires m in AppendAll(thread, ms)
    ensures m in thread || m in ms
  {
    if ms != [] {
      var before := ms[..|ms| - 1];
      if m != ms[|ms| - 1] {
        AppendAllMembers(thread, before, m);
      }
    }
  }

  /** Every entry of the closed record's thread is an old entry, a message of the turn, or the
      reply that was posted. */
  lemma ClosedMembers(lim: Limits, r: Record, c: Closing, s: Summarizer, m: Message)
    requires m in Closed(lim, r, c, s).thread
    ensures m in r.thread || m in c.input.turn.messages || (c.sent && c.reply.Some? && m == BotMessage(c))
  {
    var t := AppendAll(r.thread, c.input.turn.messages);
    assert m in Extended(r.thread, c);
    if m in t {
      AppendAllMembers(r.thread, c.input.turn.messages, m);
    }
  }

  /** Messages not remembered yet are appended all, in order. */
  lemma {:induction false} FreshMessagesAreAppended(thread: seq<Message>, ms: seq<Message>)
    requires DistinctIDs(thread) && DistinctIDs(ms) && PostIDs(thread) !! PostIDs(ms)
    ensures AppendAll(thread, ms) == thread + ms
  {
    if ms == [] {
      assert thread + ms == thread;
    } else {
      var before, m := ms[..|ms| - 1], ms[|ms| - 1];
      FreshMessagesAreAppended(thread, before);
      AppendAllExtends(thread, before);
      assert PostIDs(ms) == PostIDs(before) + (if m.postID != "" then {m.postID} else {});
      assert m.postID == "" || m.postID !in PostIDs(thread) + PostIDs(before);
      hide PostIDs, DistinctIDs;
      assert thread + ms == (thread + before) + [m];
    }
  }

  /** The closed thread knows the old ids, the turn's, and the bot's own when the turn was sent. */
  lemma ExtendedIDs(thread: seq<Message>, c: Closing)
    requires DistinctIDs(thread)
    ensures PostIDs(Extended(thread, c))
            == PostIDs(thread) + PostIDs(c.input.turn.messages)
               + (if c.sent && c.reply.Some? then {"bot_" + c.input.turn.lastPostID} else {})
  {
    AppendAllExtends(thread, c.input.turn.messages);
    if c.sent && c.reply.Some? {
      AppendOne(AppendAll(thread, c.input.turn.messages), BotMessage(c));
    }
  }

  /** A reply that was sent is the last thing remembered of its turn, also after a fold. */
  lemma SentReplyIsLast(lim: Limits, r: Record, c: Closing, s: Summarizer)
    requires DistinctIDs(r.thread) && c.sent && c.reply.Some?
    requires "bot_" + c.input.turn.lastPostID !in PostIDs(r.thread) + PostIDs(c.input.turn.messages)
    ensures
      var thread := Closed(lim, r, c, s).thread;
      && thread != []
      && thread[|thread| - 1] == Message("bot_" + c.input.turn.lastPostID, c.reply.value.body, c.input.now, Host)
  {
    AppendAllExtends(r.thread, c.input.turn.messages);
    hide PostIDs, AppendAll, MergeEntities;
    var t := AppendAll(r.thread, c.input.turn.messages);
    assert Extended(r.thread, c) == t + [BotMessage(c)];
  }

  /** A fold keeps exactly the newest keep entries, and there is one exactly when both limits are
      positive and both are exceeded. */
  lemma FoldKeepsExactly(lim: Limits, r: Record, c: Closing, s: Summarizer)
    ensures
      var whole, kept := Extended(r.thread, c), Closed(lim, r, c, s).thread;
      kept == if lim.cap > 0 && lim.keep > 0 && |whole| > lim.cap && |whole| > lim.keep
              then whole[|whole| - lim.keep..] else whole
  {
    hide Extended, MergeEntities;
  }

  // ----- the bounded thread against the unbounded ledger -----

  /** A record beside every message ever appended to it. */
  datatype Ledgered = Ledgered(rec: Record, ledger: seq<Message>)

  function CloseLedgered(lim: Limits, l: Ledgered, c: Closing, s: Summarizer): Ledgered
  {
    var t := Extended(l.rec.thread, c);
    Ledgered(Closed(lim, l.rec, c, s), l.ledger + t[Min(|l.rec.thread|, |t|)..])
  }

  predicate Suffix(s: seq<Message>, whole: seq<Message>) {
    |s| <= |whole| && whole[|whole| - |s|..] == s
  }

  ghost predicate Faithful(lim: Limits, l: Ledgered) {
    && Suffix(l.rec.thread, l.ledger)
    && DistinctIDs(l.rec.thread)
    && (lim.cap > 0 && lim.keep > 0 ==> |l.rec.thread| <= Max(lim.cap, lim.keep))
  }

  lemma {:induction false} DistinctSuffix(ms: seq<Message>, k: nat)
    requires k <= |ms| && DistinctIDs(ms)
    ensures DistinctIDs(ms[k..]) && PostIDs(ms[k..]) <= PostIDs(ms)
  {
    if k < |ms| {
      var before := ms[..|ms| - 1];
      DistinctSuffix(before, k);
      var tail := ms[k..];
      assert tail[..|tail| - 1] == before[k..];
    }
  }

  lemma SuffixExtends(thread: seq<Message>, ledger: seq<Message>, t: seq<Message>)
    requires Suffix(thread, ledger) && thread <= t
    ensures Suffix(t, ledger + t[|thread|..])
  {
    var cut := |ledger| - |thread|;
    assert ledger == ledger[..cut] + thread;
    assert t == thread + t[|thread|..];
    assert (ledger + t[|thread|..])[cut..] == t;
  }

  lemma SuffixOfSuffix(t: seq<Message>, ledger: seq<Message>, k: nat)
    requires Suffix(t, ledger) && k <= |t|
    ensures Suffix(t[k..], ledger)
    ensures k > 0 ==> ledger[|ledger| - (|t| - k) - 1] == t[k - 1]
  {
    var cut := |ledger| - |t|;
    assert forall i :: 0 <= i < |t| ==> t[i] == ledger[cut..][i] == ledger[cut + i];
  }

  lemma FoldStaysFaithful(lim: Limits, r: Record, ledger: seq<Message>, s: Summarizer)
    requires Suffix(r.thread, ledger) && DistinctIDs(r.thread)
    ensures Faithful(lim, Ledgered(Folded(lim, r, s), ledger))
    ensures
      var f := Folded(lim, r, s);
      if Overflows(lim, r.thread) && s.Answers? then
        && f.lastSummary == s.text
        && |f.thread| < |ledger| && f.lastSummaryPostID == ledger[|ledger| - |f.thread| - 1].postID
      else
        f.lastSummary == r.lastSummary && f.lastSummaryPostID == r.lastSummaryPostID
  {
    hide DistinctIDs;
    if Overflows(lim, r.thread) {
      var split := |r.thread| - lim.keep;
      DistinctSuffix(r.thread, split);
      SuffixOfSuffix(r.thread, ledger, split);
    }
  }

  /** One closed turn keeps the thread a bounded, duplicate-free suffix of the ledger; a
      successful fold names the ledger entry just before it. */
  lemma CloseStaysFaithful(lim: Limits, l: Ledgered, c: Closing, s: Summarizer)
    requires Faithful(lim, l)
    ensures Faithful(lim, CloseLedgered(lim, l, c, s))
    ensures
      var l' := CloseLedgered(lim, l, c, s);
      if Overflows(lim, Extended(l.rec.thread, c)) && s.Answers? then
        && l'.rec.lastSummary == s.text
        && |l'.rec.thread| < |l'.ledger|
        && l'.rec.lastSummaryPostID == l'.ledger[|l'.ledger| - |l'.rec.thread| - 1].postID
      else
        l'.rec.lastSummary == l.rec.lastSummary && l'.rec.lastSummaryPostID == l.rec.lastSummaryPostID
  {
    hide MergeEntities, AppendAll, Appended, DistinctIDs;
    var t := Extended(l.rec.thread, c);
    ExtendedIsLonger(l.rec.thread, c);
    SuffixExtends(l.rec.thread, l.ledger, t);
    FoldStaysFaithful(lim, Noted(l.rec, c), l.ledger + t[|l.rec.thread|..], s);
  }

  /** The summarizer never decides what is remembered verbatim. */
  lemma ThreadIgnoresSummarizer(lim: Limits, r: Record, c: Closing, s: Summarizer, s': Summarizer)
    ensures Closed(lim, r, c, s).thread == Closed(lim, r, c, s').thread
  {
  }

  function CloseAll(lim: Limits, l: Ledgered, turns: seq<(Closing, Summarizer)>): Ledgered {
    if turns == [] then l
    else
      var last := turns[|turns| - 1];
      CloseLedgered(lim, CloseAll(lim, l, turns[..|turns| - 1]), last.0, last.1)
  }

  /** Fold conservation over any sequence of closed turns of one conversation. */
  lemma {:induction false} HistoryStaysFaithful(lim: Limits, turns: seq<(Closing, Summarizer)>)
    ensures Faithful(lim, CloseAll(lim, Ledgered(EMPTY_RECORD, []), turns))
    ensures CloseAll(lim, Ledgered(EMPTY_RECORD, []), turns).rec.entities
            == MergeHistory(ClassifiedEntities(turns))
  {
    if turns != [] {
      var before, last := turns[..|turns| - 1], turns[|turns| - 1];
      HistoryStaysFaithful(lim, before);
      CloseStaysFaithful(lim, CloseAll(lim, Ledgered(EMPTY_RECORD, []), before), last.0, last.1);
      var e := ClassifiedEntities(before);
      assert (e + [last.0.cls.entities])[..|e|] == e;
      assert e + [] == e;
    }
  }

  /** The entities of the turns that were classified. */
  function ClassifiedEntities(turns: seq<(Closing, Summarizer)>): seq<Entities> {
    if turns == [] then []
    else
      var last := turns[|turns| - 1].0;
      ClassifiedEntities(turns[..|turns| - 1]) + (if last.cls.primary != Other("") then [last.cls.entities] else [])
  }

  // ----- the other fields over a history -----

  /** A field of the newest closed turn that satisfies p, or nothing. */
  function Of<T>(turns: seq<(Closing, Summarizer)>, p: Closing -> bool, field: Closing -> T): Option<T> {
    match Newest(turns, (t: (Closing, Summarizer)) => p(t.0))
    case Some(i) => Some(field(turns[i].0))
    case None => None
  }

  lemma OfStep<T>(turns: seq<(Closing, Summarizer)>, p: Closing -> bool, field: Closing -> T)
    requires turns != []
    ensures Of(turns, p, field) ==
            if p(turns[|turns| - 1].0) then Some(field(turns[|turns| - 1].0)) else Of(turns[..|turns| - 1], p, field)
  {
  }

  function Or<T>(o: Option<T>, fallback: T): T {
    if o.Some? then o.value else fallback
  }

  /** The classification is that of the newest classified turn; the auto-send and escalation times
      those of the newest sent and the newest unsent turn. */
  ghost predicate DecisionsFollow(r: Record, turns: seq<(Closing, Summarizer)>) {
    && r.lastClassification == Of(turns, (c: Closing) => c.cls.primary != Other(""), (c: Closing) => c.cls)
    && r.lastAutoSendAt == Of(turns, (c: Closing) => c.sent, (c: Closing) => c.input.now)
    && r.lastEscalationAt == Of(turns, (c: Closing) => !c.sent, (c: Closing) => c.input.now)
  }

  /** Guest and platform are the newest known ones; the record is stamped by the newest turn. */
  ghost predicate IdentityFollows(r: Record, turns: seq<(Closing, Summarizer)>) {
    && r.guestID == Or(Of(turns, (c: Closing) => c.input.conv.guestID != "", (c: Closing) => c.input.conv.guestID), "")
    && r.platform == Or(Of(turns, (c: Closing) => c.input.conv.platform != "", (c: Closing) => c.input.conv.platform), "")
    && r.key == Or(Of(turns, (c: Closing) => true, (c: Closing) => c.input.turn.key), "")
    && r.updatedAt == Or(Of(turns, (c: Closing) => true, (c: Closing) => c.input.now), 0)
  }

  lemma DecisionsStep(lim: Limits, r: Record, turns: seq<(Closing, Summarizer)>)
    requires turns != [] && DecisionsFollow(r, turns[..|turns| - 1])
    ensures DecisionsFollow(Closed(lim, r, turns[|turns| - 1].0, turns[|turns| - 1].1), turns)
  {
    hide Extended, MergeEntities, Of;
    OfStep(turns, (c: Closing) => c.cls.primary != Other(""), (c: Closing) => c.cls);
    OfStep(turns, (c: Closing) => c.sent, (c: Closing) => c.input.now);
    OfStep(turns, (c: Closing) => !c.sent, (c: Closing) => c.input.now);
  }

  lemma IdentityStep(lim: Limits, r: Record, turns: seq<(Closing, Summarizer)>)
    requires turns != [] && IdentityFollows(r, turns[..|turns| - 1])
    ensures IdentityFollows(Closed(lim, r, turns[|turns| - 1].0, turns[|turns| - 1].1), turns)
  {
    hide Extended, MergeEntities, Of;
    OfStep(turns, (c: Closing) => c.input.conv.guestID != "", (c: Closing) => c.input.conv.guestID);
    OfStep(turns, (c: Closing) => c.input.conv.platform != "", (c: Closing) => c.input.conv.platform);
    OfStep(turns, (c: Closing) => true, (c: Closing) => c.input.turn.key);
    OfStep(turns, (c: Closing) => true, (c: Closing) => c.input.now);
  }

  /** Every other field of a record follows the history of its closed turns. */
  lemma {:induction false} FieldsFollowHistory(lim: Limits, turns: seq<(Closing, Summarizer)>)
    ensures DecisionsFollow(CloseAll(lim, Ledgered(EMPTY_RECORD, []), turns).rec, turns)
    ensures IdentityFollows(CloseAll(lim, Ledgered(EMPTY_RECORD, []), turns).rec, turns)
  {
    if turns != [] {
      var before := turns[..|turns| - 1];
      FieldsFollowHistory(lim, before);
      hide DecisionsFollow, IdentityFollows, Closed, Extended;
      DecisionsStep(lim, CloseAll(lim, Ledgered(EMPTY_RECORD, []), before).rec, turns);
      IdentityStep(lim, CloseAll(lim, Ledgered(EMPTY_RECORD, []), before).rec, turns);
    }
  }
}
