/** The commitment detector (internal/application/commitment/detect.go) and the newest-first
    scan over prior host messages (internal/application/processinquiry/usecase.go). */
module Commitment {
  import opened Domain
  import opened Normalize
  import PromptSafety
  import Gates

  const OFFER_PHRASES: seq<string> := [
    "hold the dates", "hold the date", "hold these dates", "hold it for you", "put a hold",
    "put it on hold", "place a hold", "block the calendar", "lock it in", "lock these dates in",
    "lock the dates in", "lock these in", "i'll hold", "i can hold", "let me hold",
    "i'll reserve", "i can reserve", "let me reserve", "i'll book", "i can book",
    "let me book", "i'll confirm", "let me confirm the booking"]

  const AFFIRMATIVE_PHRASES: seq<string> := [
    "yes please", "yes, please", "yes do", "yes pls", "please do", "please go ahead", "go ahead",
    "sounds good", "book it", "do it", "sure", "sure thing", "confirm it", "let's do it",
    "lets do it", "that works"]

  const DEFER_PHRASES: seq<string> := [
    "for now", "not yet", "before", "first", "question", "questions", "instead", "later", "after", "until"]

  const FINALIZATION_PHRASES: seq<string> := [
    "lock it in", "lock them in", "lock that", "book it", "book them", "confirm booking",
    "confirm the booking", "reserve it", "reserve them", "finalize", "proceed", "go ahead and book"]

  const BARE_YES: seq<string> := ["yes", "yeah", "yep", "yup", "ok", "okay", "k"]

  const TERMINAL_PUNCTUATION: string := "!?.;,:"

  const MAX_AFFIRMATIVE_LEN := 80

  /** The first phrase that occurs in hay, or "". */
  function MatchFirst(hay: string, phrases: seq<string>): string {
    if phrases == [] then ""
    else if PromptSafety.Contains(hay, phrases[0]) then phrases[0]
    else MatchFirst(hay, phrases[1..])
  }

  function TrimRightSet(s: string, cut: string): (r: string)
    ensures |r| <= |s| && r == s[..|r|] && (forall i :: |r| <= i < |s| ==> s[i] in cut)
    ensures r != "" ==> r[|r| - 1] !in cut
  {
    if s != "" && s[|s| - 1] in cut then TrimRightSet(s[..|s| - 1], cut) else s
  }

  function TrimLeftSet(s: string, cut: string): (r: string)
    ensures |r| <= |s| && r == s[|s| - |r|..] && (forall i :: 0 <= i < |s| - |r| ==> s[i] in cut)
    ensures r != "" ==> r[0] !in cut
  {
    if s != "" && s[0] in cut then TrimLeftSet(s[1..], cut) else s
  }

  function LeadingToken(s: string): string {
    if Fields(s) == [] then ""
    else TrimRightSet(TrimLeftSet(Fields(s)[0], TERMINAL_PUNCTUATION), TERMINAL_PUNCTUATION)
  }

  function MatchAffirmative(guest: string): string {
    if MatchFirst(guest, DEFER_PHRASES) != "" then ""
    else
      var phrase := MatchFirst(guest, AFFIRMATIVE_PHRASES);
      if phrase != "" then phrase
      else
        var token := LeadingToken(TrimRightSet(TrimSpace(guest), TERMINAL_PUNCTUATION));
        if token in BARE_YES then token else ""
  }

  datatype Match = Match(offer: string, reply: string)

  const ESCALATION_TAG := "commitment_needs_human"

  function Detect(lower: char -> char, hostBody: string, guestBody: string): Option<Match> {
    var guest := ComparableBody(lower, guestBody);
    if guest == "" || ByteLength(guest) > MAX_AFFIRMATIVE_LEN then None
    else
      var offer := MatchFirst(ComparableBody(lower, hostBody), OFFER_PHRASES);
      if offer == "" then None
      else
        var reply := MatchAffirmative(guest);
        if reply == "" then None else Some(Match(offer, reply))
  }

  predicate WantsFinalization(lower: char -> char, guestBody: string) {
    var guest := ComparableBody(lower, guestBody);
    && guest != "" && ByteLength(guest) <= MAX_AFFIRMATIVE_LEN
    && MatchFirst(guest, DEFER_PHRASES) == ""
    && MatchFirst(guest, FINALIZATION_PHRASES) != ""
  }

  predicate Mentions(hay: string, phrases: seq<string>) {
    exists i | 0 <= i < |phrases| :: PromptSafety.Contains(hay, phrases[i])
  }

  /** A table is searched in order: the result is the earliest entry that occurs, if any does. */
  lemma {:induction false} FirstMatchIff(hay: string, phrases: seq<string>)
    requires "" !in phrases
    ensures MatchFirst(hay, phrases) != "" <==> Mentions(hay, phrases)
    ensures MatchFirst(hay, phrases) != "" ==>
            exists i :: 0 <= i < |phrases| && MatchFirst(hay, phrases) == phrases[i] && PromptSafety.Contains(hay, phrases[i])
                        && forall j :: 0 <= j < i ==> !PromptSafety.Contains(hay, phrases[j])
  {
    hide PromptSafety.Contains;
    if phrases != [] && !PromptSafety.Contains(hay, phrases[0]) {
      var rest := phrases[1..];
      FirstMatchIff(hay, rest);
      if MatchFirst(hay, rest) != "" {
        var i :| 0 <= i < |rest| && MatchFirst(hay, rest) == rest[i] && PromptSafety.Contains(hay, rest[i])
                 && forall j :: 0 <= j < i ==> !PromptSafety.Contains(hay, rest[j]);
        assert phrases[i + 1] == rest[i];
        forall j | 0 <= j < i + 1 ensures !PromptSafety.Contains(hay, phrases[j]) {
          assert j > 0 ==> phrases[j] == rest[j - 1];
        }
      }
      if Mentions(hay, phrases) {
        var i :| 0 <= i < |phrases| && PromptSafety.Contains(hay, phrases[i]);
        assert rest[i - 1] == phrases[i];
      }
    }
  }

  /** A short guest body that does not put the matter off. */
  ghost predicate Prompt(guest: string) {
    guest != "" && ByteLength(guest) <= MAX_AFFIRMATIVE_LEN && !Mentions(guest, DEFER_PHRASES)
  }

  ghost predicate SaysYes(guest: string) {
    Mentions(guest, AFFIRMATIVE_PHRASES) || LeadingToken(TrimRightSet(TrimSpace(guest), TERMINAL_PUNCTUATION)) in BARE_YES
  }

  lemma TablesHoldPhrases()
    ensures "" !in OFFER_PHRASES && "" !in AFFIRMATIVE_PHRASES && "" !in DEFER_PHRASES
    ensures "" !in FINALIZATION_PHRASES && "" !in BARE_YES
  {
  }

  /** An offer counts as accepted exactly when the host text holds an offer phrase and the guest
      answers briefly, affirmatively and without deferring; the evidence is the offer found. */
  lemma DetectIff(lower: char -> char, hostBody: string, guestBody: string)
    ensures
      var host, guest := ComparableBody(lower, hostBody), ComparableBody(lower, guestBody);
      && (Detect(lower, hostBody, guestBody).Some? <==> Prompt(guest) && Mentions(host, OFFER_PHRASES) && SaysYes(guest))
      && (WantsFinalization(lower, guestBody) <==> Prompt(guest) && Mentions(guest, FINALIZATION_PHRASES))
      && (Detect(lower, hostBody, guestBody).Some? ==>
            var m := Detect(lower, hostBody, guestBody).value;
            && m.offer in OFFER_PHRASES && PromptSafety.Contains(host, m.offer)
            && ((m.reply in AFFIRMATIVE_PHRASES && PromptSafety.Contains(guest, m.reply)) || m.reply in BARE_YES))
  {
    var host, guest := ComparableBody(lower, hostBody), ComparableBody(lower, guestBody);
    hide ComparableBody, Mentions, MatchFirst, LeadingToken, TrimRightSet, TrimSpace, ByteLength, PromptSafety.Contains;
    TablesHoldPhrases();
    FirstMatchIff(host, OFFER_PHRASES);
    FirstMatchIff(guest, AFFIRMATIVE_PHRASES);
    FirstMatchIff(guest, DEFER_PHRASES);
    FirstMatchIff(guest, FINALIZATION_PHRASES);
  }

  // ----- which offers are backed by a hold -----

  const BOT_PREFIX := "bot_"

  predicate BotPost(id: string) {
    |id| >= 4 && id[..4] == BOT_PREFIX
  }

  /** The reply-store keys under which a host post may have been recorded. */
  function HoldLookupIDs(id: string): seq<string> {
    if id == "" then []
    else if BotPost(id) then (if id[4..] != "" then [id, id[4..]] else [id])
    else [id, BOT_PREFIX + id]
  }

  /** Reply lookups; a missing store or a failed lookup is None. */
  type Replies = string -> Option<Reply>

  predicate HoldRecorded(replies: Replies, id: string) {
    exists x | x in HoldLookupIDs(id) ::
      replies(x).Some? && Gates.UsedSuccessfully(replies(x).value.usedTools, "hold_reservation")
  }

  /** A platform echo of a bot note: same text as a bot_ message whose hold succeeded. */
  predicate HoldByBodyAlias(lower: char -> char, replies: Replies, thread: seq<Message>, host: Message) {
    && !BotPost(host.postID)
    && ComparableBody(lower, host.body) != ""
    && exists i | 0 <= i < |thread| ::
         && thread[i].role.Host? && BotPost(thread[i].postID) && thread[i].postID != host.postID
         && ComparableBody(lower, thread[i].body) == ComparableBody(lower, host.body)
         && HoldRecorded(replies, thread[i].postID)
  }

  /** The reply stored under x made a hold that succeeded. */
  ghost predicate HoldStored(replies: Replies, x: string) {
    && replies(x).Some?
    && var tools := replies(x).value.usedTools;
       exists i :: 0 <= i < |tools| && tools[i].name == "hold_reservation" && tools[i].error == ""
  }

  /** A host post id and a reply id that may belong to the same reply. */
  predicate SameReply(id: string, x: string) {
    x != "" && (x == id || "bot_" + x == id || (!("bot_" <= id) && x == "bot_" + id))
  }

  /** Some reply that may belong to this post made a successful hold. */
  ghost predicate HoldUnder(replies: Replies, id: string) {
    id != "" && exists x :: SameReply(id, x) && HoldStored(replies, x)
  }

  /** The post repeats, up to case and spacing, a bot post in the thread whose reply made a hold. */
  ghost predicate EchoesHold(lower: char -> char, replies: Replies, thread: seq<Message>, m: Message) {
    && !("bot_" <= m.postID) && ComparableBody(lower, m.body) != ""
    && exists i :: 0 <= i < |thread| && thread[i].role == Host && "bot_" <= thread[i].postID
                   && ComparableBody(lower, thread[i].body) == ComparableBody(lower, m.body)
                   && HoldUnder(replies, thread[i].postID)
  }

  lemma BotPostIff(id: string)
    ensures BotPost(id) <==> "bot_" <= id
    ensures BotPost(id) ==> id == "bot_" + id[4..]
  {
  }

  lemma LookupIff(id: string, x: string)
    requires id != ""
    ensures x in HoldLookupIDs(id) <==> SameReply(id, x)
  {
    BotPostIff(id);
    if "bot_" + x == id {
      assert x == id[4..];
    }
  }

  /** What counts as a recorded hold, and under which ids it is looked up. */
  lemma HoldRecordedIff(replies: Replies, id: string)
    ensures HoldRecorded(replies, id) <==> HoldUnder(replies, id)
  {
    if id != "" {
      forall x ensures x in HoldLookupIDs(id) <==> SameReply(id, x) {
        LookupIff(id, x);
      }
    }
    hide HoldLookupIDs, SameReply;
  }

  lemma HoldByBodyAliasIff(lower: char -> char, replies: Replies, thread: seq<Message>, m: Message)
    ensures HoldByBodyAlias(lower, replies, thread, m) <==> EchoesHold(lower, replies, thread, m)
  {
    hide HoldRecorded, HoldUnder, ComparableBody;
    BotPostIff(m.postID);
    forall i | 0 <= i < |thread|
      ensures BotPost(thread[i].postID) <==> "bot_" <= thread[i].postID
      ensures HoldRecorded(replies, thread[i].postID) <==> HoldUnder(replies, thread[i].postID)
    {
      BotPostIff(thread[i].postID);
      HoldRecordedIff(replies, thread[i].postID);
    }
    hide BotPost;
  }

  // ----- the scan -----

  /** Everything the scan looks at. */
  datatype Scan = Scan(lower: char -> char, replies: Replies, thread: seq<Message>, guestBody: string) {
    predicate Offers(m: Message) {
      m.role.Host? && TrimSpace(m.body) != "" && Detect(lower, m.body, guestBody).Some?
    }

    predicate Held(m: Message) {
      HoldRecorded(replies, m.postID) || HoldByBodyAlias(lower, replies, thread, m)
    }

    /** An offer that ends the scan: it is backed by a hold, or the bot itself made it. */
    predicate Decisive(m: Message) {
      Offers(m) && (Held(m) || BotPost(m.postID))
    }

    function NewestDecisive(): Option<nat> {
      Newest(thread, m => Decisive(m))
    }

    function NewestOffer(): Option<nat> {
      Newest(thread, m => Offers(m))
    }

    /** The offer a human must take over, if any. */
    function Candidate(): Option<nat> {
      match NewestDecisive()
      case Some(d) => if Held(thread[d]) && !WantsFinalization(lower, guestBody) then None else Some(d)
      case None => NewestOffer()
    }
  }

  lemma NewestIs<T>(xs: seq<T>, p: T -> bool, i: nat)
    requires i < |xs| && p(xs[i]) && forall j :: i < j < |xs| ==> !p(xs[j])
    ensures Newest(xs, p) == Some(i)
  {
  }

  lemma NewestNone<T>(xs: seq<T>, p: T -> bool)
    requires forall j :: 0 <= j < |xs| ==> !p(xs[j])
    ensures Newest(xs, p) == None
  {
  }

  /** The newest-to-oldest loop with its fallback variable. */
  method LatestCommitmentCandidate(s: Scan) returns (found: Option<(Message, Match)>)
    ensures found.Some? <==> s.Candidate().Some?
    ensures found.Some? ==>
      var c := s.Candidate().value;
      c < |s.thread| && found.value.0 == s.thread[c] && Some(found.value.1) == Detect(s.lower, s.thread[c].body, s.guestBody)
  {
    hide Detect, WantsFinalization, HoldRecorded, HoldByBodyAlias, TrimSpace;
    var fallback: Option<(Message, Match)> := None;
    ghost var f: nat := 0;
    var i := |s.thread|;
    while i > 0
      invariant 0 <= i <= |s.thread|
      invariant forall j :: i <= j < |s.thread| ==> !s.Decisive(s.thread[j])
      invariant fallback.None? ==> forall j :: i <= j < |s.thread| ==> !s.Offers(s.thread[j])
      invariant fallback.Some? ==>
        && i <= f < |s.thread| && s.Offers(s.thread[f]) && fallback.value.0 == s.thread[f]
        && Some(fallback.value.1) == Detect(s.lower, s.thread[f].body, s.guestBody)
        && forall j :: f < j < |s.thread| ==> !s.Offers(s.thread[j])
    {
      i := i - 1;
      var host := s.thread[i];
      if !host.role.Host? || TrimSpace(host.body) == "" {
        continue;
      }
      var hit := Detect(s.lower, host.body, s.guestBody);
      if hit.None? {
        continue;
      }
      var holdSucceeded := HoldRecorded(s.replies, host.postID) || HoldByBodyAlias(s.lower, s.replies, s.thread, host);
      if holdSucceeded {
        NewestIs(s.thread, m => s.Decisive(m), i);
        if WantsFinalization(s.lower, s.guestBody) {
          return Some((host, hit.value));
        }
        return None;
      }
      if BotPost(host.postID) {
        NewestIs(s.thread, m => s.Decisive(m), i);
        return Some((host, hit.value));
      }
      if fallback.None? {
        fallback := Some((host, hit.value));
        f := i;
      }
    }
    NewestNone(s.thread, m => s.Decisive(m));
    if fallback.Some? {
      NewestIs(s.thread, m => s.Offers(m), f);
    } else {
      NewestNone(s.thread, m => s.Offers(m));
    }
    return fallback;
  }

  ghost predicate NoOffers(s: Scan) {
    forall i :: 0 <= i < |s.thread| ==> !s.Offers(s.thread[i])
  }

  /** Offer d has its hold and nothing after it is decisive. */
  ghost predicate HeldAndNewest(s: Scan, d: int) {
    && 0 <= d < |s.thread| && s.Offers(s.thread[d]) && s.Held(s.thread[d])
    && forall j :: d < j < |s.thread| ==> !s.Decisive(s.thread[j])
  }

  /** When the scan stands down: nothing was offered, or the newest decisive offer already has
      its hold and the guest is not asking to complete the booking. */
  lemma ScanStandsDownIff(s: Scan)
    ensures s.Candidate().None? <==>
            NoOffers(s) || (!WantsFinalization(s.lower, s.guestBody) && exists d :: HeldAndNewest(s, d))
  {
    hide Detect, WantsFinalization, HoldRecorded, HoldByBodyAlias, TrimSpace;
    if s.NewestDecisive().None? {
      assert s.Candidate() == s.NewestOffer();
    } else if exists d :: HeldAndNewest(s, d) {
      var d :| HeldAndNewest(s, d);
      NewestIs(s.thread, m => s.Decisive(m), d);
    } else {
      var d := s.NewestDecisive().value;
      assert !HeldAndNewest(s, d);
    }
  }

  /** A host message that, answered like this, is an accepted offer. */
  ghost predicate Accepts(lower: char -> char, m: Message, guestBody: string) {
    var guest := ComparableBody(lower, guestBody);
    && m.role == Host && !Blank(m.body) && Mentions(ComparableBody(lower, m.body), OFFER_PHRASES)
    && Prompt(guest) && SaysYes(guest)
  }

  lemma OffersIff(s: Scan, m: Message)
    ensures s.Offers(m) <==> Accepts(s.lower, m, s.guestBody)
  {
    TrimsToNothingIff(m.body);
    DetectIff(s.lower, m.body, s.guestBody);
    hide Detect, Prompt, SaysYes, Mentions, TrimSpace, Blank, ComparableBody;
  }

  lemma HeldIff(s: Scan, m: Message)
    ensures s.Held(m) <==> HoldUnder(s.replies, m.postID) || EchoesHold(s.lower, s.replies, s.thread, m)
  {
    HoldRecordedIff(s.replies, m.postID);
    HoldByBodyAliasIff(s.lower, s.replies, s.thread, m);
    hide HoldRecorded, HoldByBodyAlias, HoldUnder, EchoesHold;
  }

  /** An accepted offer that settles the scan: backed by a hold, or made by the bot. */
  ghost predicate Settles(s: Scan, i: int) {
    && 0 <= i < |s.thread| && Accepts(s.lower, s.thread[i], s.guestBody)
    && (HoldUnder(s.replies, s.thread[i].postID) || EchoesHold(s.lower, s.replies, s.thread, s.thread[i])
        || "bot_" <= s.thread[i].postID)
  }

  lemma DecisiveIff(s: Scan, i: nat)
    requires i < |s.thread|
    ensures s.Decisive(s.thread[i]) <==> Settles(s, i)
  {
    OffersIff(s, s.thread[i]);
    HeldIff(s, s.thread[i]);
    BotPostIff(s.thread[i].postID);
    hide HoldUnder, EchoesHold, Accepts, BotPost, Detect, HoldRecorded, HoldByBodyAlias;
  }

  ghost predicate Backed(s: Scan, m: Message) {
    HoldUnder(s.replies, m.postID) || EchoesHold(s.lower, s.replies, s.thread, m)
  }

  ghost predicate AsksToFinalize(lower: char -> char, guestBody: string) {
    var guest := ComparableBody(lower, guestBody);
    Prompt(guest) && Mentions(guest, FINALIZATION_PHRASES)
  }

  /** Offer i must be taken over: it is the newest that settles the scan, unless it is backed by a
      hold and the guest does not ask to finalize; or, when none settles it, the newest accepted. */
  ghost predicate TakenOver(s: Scan, i: int) {
    && 0 <= i < |s.thread|
    && if exists j :: Settles(s, j) then
         && Settles(s, i) && (forall j :: Settles(s, j) ==> j <= i)
         && (Backed(s, s.thread[i]) ==> AsksToFinalize(s.lower, s.guestBody))
       else
         && Accepts(s.lower, s.thread[i], s.guestBody)
         && (forall j :: i < j < |s.thread| ==> !Accepts(s.lower, s.thread[j], s.guestBody))
  }

  lemma CandidateIs(s: Scan, d: nat)
    ensures s.Candidate() == Some(d) <==> TakenOver(s, d)
  {
    hide Detect, WantsFinalization, HoldRecorded, HoldByBodyAlias, TrimSpace, HoldUnder, EchoesHold, Accepts, Settles, AsksToFinalize;
    forall i: nat | i < |s.thread|
      ensures s.Offers(s.thread[i]) <==> Accepts(s.lower, s.thread[i], s.guestBody)
      ensures s.Decisive(s.thread[i]) <==> Settles(s, i)
    {
      OffersIff(s, s.thread[i]);
      DecisiveIff(s, i);
    }
    SettlesInRange(s);
    FinalizationIff(s);
    if d < |s.thread| {
      HeldIff(s, s.thread[d]);
      CandidateByPosition(s, d);
    } else {
      CandidateInRange(s);
    }
  }

  lemma SettlesInRange(s: Scan)
    ensures forall j :: Settles(s, j) ==> 0 <= j < |s.thread|
  {
  }

  lemma CandidateInRange(s: Scan)
    ensures s.Candidate().Some? ==> s.Candidate().value < |s.thread| && s.Offers(s.thread[s.Candidate().value])
  {
    hide Detect, WantsFinalization, HoldRecorded, HoldByBodyAlias, TrimSpace;
  }

  lemma FinalizationIff(s: Scan)
    ensures WantsFinalization(s.lower, s.guestBody) <==> AsksToFinalize(s.lower, s.guestBody)
  {
    DetectIff(s.lower, "", s.guestBody);
    hide WantsFinalization, Prompt, Mentions, ComparableBody, Detect;
  }

  lemma CandidateByPosition(s: Scan, d: nat)
    requires d < |s.thread|
    ensures s.Candidate() == Some(d) <==>
            || (&& s.Decisive(s.thread[d]) && (forall j :: d < j < |s.thread| ==> !s.Decisive(s.thread[j]))
                && (s.Held(s.thread[d]) ==> WantsFinalization(s.lower, s.guestBody)))
            || (&& (forall j :: 0 <= j < |s.thread| ==> !s.Decisive(s.thread[j])) && s.Offers(s.thread[d])
                && (forall j :: d < j < |s.thread| ==> !s.Offers(s.thread[j])))
  {
    hide Detect, WantsFinalization, HoldRecorded, HoldByBodyAlias, TrimSpace;
    if s.Decisive(s.thread[d]) && forall j :: d < j < |s.thread| ==> !s.Decisive(s.thread[j]) {
      NewestIs(s.thread, m => s.Decisive(m), d);
    } else if s.NewestDecisive().None? && s.Offers(s.thread[d]) && forall j :: d < j < |s.thread| ==> !s.Offers(s.thread[j]) {
      NewestIs(s.thread, m => s.Offers(m), d);
    }
  }

  /** The detector cannot tell apart bodies that differ only in case and spacing. */
  lemma DetectSeesNormalForms(lower: char -> char, host: string, guest: string)
    requires lower(' ') == ' ' && forall c :: lower(lower(c)) == lower(c)
    ensures Detect(lower, ComparableBody(lower, host), ComparableBody(lower, guest)) == Detect(lower, host, guest)
    ensures WantsFinalization(lower, ComparableBody(lower, guest)) == WantsFinalization(lower, guest)
  {
    NormalFormIsIdempotent(lower, host);
    NormalFormIsIdempotent(lower, guest);
  }
}
