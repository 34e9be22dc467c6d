/** Layering the webhook thread over the remembered thread (mergeThread in
    internal/application/processinquiry/usecase.go). */
module ThreadMerge {
  import opened Domain

  /** The non-empty ids of a list. */
  function PostIDs(ms: seq<Message>): set<string> {
    if ms == [] then {}
    else
      var m := ms[|ms| - 1];
      PostIDs(ms[..|ms| - 1]) + (if m.postID != "" then {m.postID} else {})
  }

  lemma PostIDsSnoc(ms: seq<Message>, m: Message)
    ensures PostIDs(ms + [m]) == PostIDs(ms) + (if m.postID != "" then {m.postID} else {})
  {
    assert (ms + [m])[..|ms|] == ms;
  }

  /** An entry survives when it has no id, or when its id is neither in the current turn nor
      carried by an earlier entry. */
  predicate Survives(before: seq<Message>, turnIDs: set<string>, m: Message) {
    m.postID == "" || (m.postID !in turnIDs && m.postID !in PostIDs(before))
  }

  function Filtered(all: seq<Message>, turnIDs: set<string>): seq<Message> {
    if all == [] then []
    else
      var before, m := all[..|all| - 1], all[|all| - 1];
      Filtered(before, turnIDs) + (if Survives(before, turnIDs, m) then [m] else [])
  }

  function Merged(memory: seq<Message>, webhook: seq<Message>, turnIDs: set<string>): seq<Message> {
    Filtered(memory + webhook, turnIDs)
  }

  lemma FilteredSnoc(all: seq<Message>, turnIDs: set<string>, m: Message)
    ensures Filtered(all + [m], turnIDs) ==
            Filtered(all, turnIDs) + (if Survives(all, turnIDs, m) then [m] else [])
  {
    assert (all + [m])[..|all|] == all;
  }

  /** The source's loops: collect the turn's ids, then append what has not been seen. */
  method MergeThread(memory: seq<Message>, webhook: seq<Message>, currentTurn: seq<Message>) returns (out: seq<Message>)
    ensures out == Merged(memory, webhook, PostIDs(currentTurn))
  {
    var turnIDs := CollectIDs(currentTurn);
    out := [];
    var seen: set<string> := {};
    var i := 0;
    while i < |memory|
      invariant 0 <= i <= |memory|
      invariant out == Filtered(memory[..i], turnIDs) && seen == PostIDs(memory[..i]) - turnIDs
    {
      assert memory[..i + 1] == memory[..i] + [memory[i]];
      out, seen := AppendIfNew(out, seen, turnIDs, memory[i], memory[..i]);
      i := i + 1;
    }
    assert memory[..i] == memory;
    i := 0;
    assert memory + webhook[..0] == memory;
    while i < |webhook|
      invariant 0 <= i <= |webhook|
      invariant out == Filtered(memory + webhook[..i], turnIDs)
      invariant seen == PostIDs(memory + webhook[..i]) - turnIDs
    {
      assert memory + webhook[..i + 1] == (memory + webhook[..i]) + [webhook[i]];
      out, seen := AppendIfNew(out, seen, turnIDs, webhook[i], memory + webhook[..i]);
      i := i + 1;
    }
    assert webhook[..i] == webhook;
  }

  method CollectIDs(ms: seq<Message>) returns (ids: set<string>)
    ensures ids == PostIDs(ms)
  {
    ids := {};
    var i := 0;
    while i < |ms|
      invariant 0 <= i <= |ms|
      invariant ids == PostIDs(ms[..i])
    {
      assert ms[..i + 1] == ms[..i] + [ms[i]];
      PostIDsSnoc(ms[..i], ms[i]);
      if ms[i].postID != "" {
        ids := ids + {ms[i].postID};
      }
      i := i + 1;
    }
    assert ms[..i] == ms;
  }

  method AppendIfNew(out: seq<Message>, seen: set<string>, turnIDs: set<string>, m: Message, ghost before: seq<Message>)
    returns (out': seq<Message>, seen': set<string>)
    requires out == Filtered(before, turnIDs) && seen == PostIDs(before) - turnIDs
    ensures out' == Filtered(before + [m], turnIDs) && seen' == PostIDs(before + [m]) - turnIDs
  {
    FilteredSnoc(before, turnIDs, m);
    PostIDsSnoc(before, m);
    if m.postID != "" {
      if m.postID in seen {
        return out, seen;
      }
      if m.postID in turnIDs {
        return out, seen;
      }
      return out + [m], seen + {m.postID};
    }
    return out + [m], seen;
  }

  // ----- what the merge keeps -----

  /** sub can be read off whole from left to right. */
  predicate Subsequence(sub: seq<Message>, whole: seq<Message>)
    decreases |whole|
  {
    || sub == []
    || (whole != [] && Subsequence(sub, whole[..|whole| - 1]))
    || (whole != [] && sub[|sub| - 1] == whole[|whole| - 1] && Subsequence(sub[..|sub| - 1], whole[..|whole| - 1]))
  }

  /** The output lists memory entries before webhook entries, each in its old order. */
  lemma {:induction false} FilteredIsSubsequence(all: seq<Message>, turnIDs: set<string>)
    ensures Subsequence(Filtered(all, turnIDs), all)
  {
    if all != [] {
      var before, m := all[..|all| - 1], all[|all| - 1];
      FilteredIsSubsequence(before, turnIDs);
      var f := Filtered(before, turnIDs);
      assert (f + [m])[..|f|] == f && f + [] == f;
    }
  }

  predicate DistinctIDs(ms: seq<Message>) {
    if ms == [] then true
    else
      var before, m := ms[..|ms| - 1], ms[|ms| - 1];
      DistinctIDs(before) && (m.postID == "" || m.postID !in PostIDs(before))
  }

  function Unnamed(ms: seq<Message>): seq<Message> {
    if ms == [] then []
    else Unnamed(ms[..|ms| - 1]) + (if ms[|ms| - 1].postID == "" then [ms[|ms| - 1]] else [])
  }

  lemma UnnamedSnoc(ms: seq<Message>, m: Message)
    ensures Unnamed(ms + [m]) == Unnamed(ms) + (if m.postID == "" then [m] else [])
  {
    assert (ms + [m])[..|ms|] == ms;
  }

  lemma DistinctSnoc(ms: seq<Message>, m: Message)
    ensures DistinctIDs(ms + [m]) <==> DistinctIDs(ms) && (m.postID == "" || m.postID !in PostIDs(ms))
  {
    assert (ms + [m])[..|ms|] == ms;
  }

  lemma {:induction false} IDsAreNamed(ms: seq<Message>)
    ensures "" !in PostIDs(ms)
  {
    if ms != [] {
      IDsAreNamed(ms[..|ms| - 1]);
    }
  }

  /** No id twice, none of the current turn, every other id kept, all unnamed entries kept. */
  lemma {:induction false} FilteredKeepsEachOnce(all: seq<Message>, turnIDs: set<string>)
    ensures DistinctIDs(Filtered(all, turnIDs))
    ensures PostIDs(Filtered(all, turnIDs)) == PostIDs(all) - turnIDs
    ensures Unnamed(Filtered(all, turnIDs)) == Unnamed(all)
  {
    if all != [] {
      var before, m := all[..|all| - 1], all[|all| - 1];
      var f := Filtered(before, turnIDs);
      FilteredKeepsEachOnce(before, turnIDs);
      PostIDsSnoc(f, m);
      UnnamedSnoc(f, m);
      DistinctSnoc(f, m);
      assert f + [] == f;
    }
  }

  /** Of several entries with one id the earliest is kept, the remembered one before the webhook's. */
  lemma {:induction false} FilteredKeepsFirst(all: seq<Message>, turnIDs: set<string>, i: nat)
    requires i < |all| && all[i].postID != "" && all[i].postID !in turnIDs
    requires forall j :: 0 <= j < i ==> all[j].postID != all[i].postID
    ensures all[i] in Filtered(all, turnIDs)
  {
    var before := all[..|all| - 1];
    if i < |before| {
      FilteredKeepsFirst(before, turnIDs, i);
    } else if all[i].postID in PostIDs(before) {
      IDHasMember(before, all[i].postID);
    }
  }

  lemma {:induction false} IDHasMember(ms: seq<Message>, id: string)
    requires id in PostIDs(ms)
    ensures exists j :: 0 <= j < |ms| && ms[j].postID == id
  {
    if ms[|ms| - 1].postID != id {
      var before := ms[..|ms| - 1];
      IDHasMember(before, id);
      var j :| 0 <= j < |before| && before[j].postID == id;
      assert ms[j].postID == id;
    }
  }

  /** DistinctIDs, read position by position. */
  lemma {:induction false} DistinctPositions(ms: seq<Message>, i: nat, j: nat)
    requires DistinctIDs(ms) && i < j < |ms| && ms[i].postID != ""
    ensures ms[i].postID != ms[j].postID
  {
    var before := ms[..|ms| - 1];
    if j < |before| {
      DistinctPositions(before, i, j);
    } else {
      MemberID(before, i);
    }
  }

  lemma {:induction false} MemberID(ms: seq<Message>, i: nat)
    requires i < |ms| && ms[i].postID != ""
    ensures ms[i].postID in PostIDs(ms)
  {
    if i < |ms| - 1 {
      MemberID(ms[..|ms| - 1], i);
    }
  }

  /** Filtering a list that is already clean changes nothing. */
  lemma {:induction false} FilteredFixed(ms: seq<Message>, turnIDs: set<string>)
    requires DistinctIDs(ms) && PostIDs(ms) !! turnIDs
    ensures Filtered(ms, turnIDs) == ms
  {
    if ms != [] {
      var before, m := ms[..|ms| - 1], ms[|ms| - 1];
      FilteredFixed(before, turnIDs);
      assert m.postID != "" ==> m.postID in PostIDs(ms);
      assert ms == before + [m];
    }
  }

  /** Merging the same webhook again appends its unnamed entries and nothing else. */
  lemma {:induction false} SecondMerge(out: seq<Message>, webhook: seq<Message>, turnIDs: set<string>)
    requires DistinctIDs(out) && PostIDs(out) !! turnIDs && PostIDs(webhook) - turnIDs <= PostIDs(out)
    ensures Filtered(out + webhook, turnIDs) == out + Unnamed(webhook)
    ensures PostIDs(out) <= PostIDs(out + webhook)
  {
    hide DistinctIDs;
    if webhook == [] {
      assert out + webhook == out;
      FilteredFixed(out, turnIDs);
    } else {
      var before, m := webhook[..|webhook| - 1], webhook[|webhook| - 1];
      SecondMerge(out, before, turnIDs);
      assert out + webhook == (out + before) + [m];
      FilteredSnoc(out + before, turnIDs, m);
      PostIDsSnoc(out + before, m);
      hide Filtered;
      assert PostIDs(webhook) == PostIDs(before) + (if m.postID != "" then {m.postID} else {});
    }
  }

  lemma {:induction false} PostIDsOfPart(a: seq<Message>, b: seq<Message>)
    ensures PostIDs(b) <= PostIDs(a + b)
  {
    if b != [] {
      var before, m := b[..|b| - 1], b[|b| - 1];
      PostIDsOfPart(a, before);
      assert a + b == (a + before) + [m];
      PostIDsSnoc(a + before, m);
    }
  }

  lemma {:induction false} UnnamedEmptyIff(ms: seq<Message>)
    ensures Unnamed(ms) == [] <==> forall i :: 0 <= i < |ms| ==> ms[i].postID != ""
  {
    if ms != [] {
      var before := ms[..|ms| - 1];
      UnnamedEmptyIff(before);
      assert forall i :: 0 <= i < |before| ==> before[i] == ms[i];
    }
  }

  /** Re-merging the webhook changes nothing exactly when all its entries are named. */
  lemma RemergeIsNoOpIff(memory: seq<Message>, webhook: seq<Message>, turnIDs: set<string>)
    ensures Merged(Merged(memory, webhook, turnIDs), webhook, turnIDs) == Merged(memory, webhook, turnIDs) + Unnamed(webhook)
    ensures Merged(Merged(memory, webhook, turnIDs), webhook, turnIDs) == Merged(memory, webhook, turnIDs)
            <==> forall i :: 0 <= i < |webhook| ==> webhook[i].postID != ""
  {
    FilteredKeepsEachOnce(memory + webhook, turnIDs);
    PostIDsOfPart(memory, webhook);
    SecondMerge(Merged(memory, webhook, turnIDs), webhook, turnIDs);
    UnnamedEmptyIff(webhook);
  }
}
