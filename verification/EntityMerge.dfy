/** Folding extracted facts over the turns of a conversation (internal/domain/memory.go). */
module EntityMerge {
  import opened Domain

  function Newer<T>(base: Option<T>, incoming: Option<T>): Option<T> {
    if incoming.Some? then incoming else base
  }

  /** Position of the last observation carrying key. */
  function PositionOf(obs: seq<Observation>, key: string): (r: Option<nat>)
    ensures r.Some? ==> r.value < |obs| && obs[r.value].key == key
    ensures r.None? ==> forall i :: 0 <= i < |obs| ==> obs[i].key != key
  {
    if obs == [] then None
    else if obs[|obs| - 1].key == key then Some(|obs| - 1)
    else PositionOf(obs[..|obs| - 1], key)
  }

  /** One observation: overwrite in place, append when new, drop when it has no key. */
  function MergeOne(out: seq<Observation>, o: Observation): seq<Observation> {
    if o.key == "" then out
    else match PositionOf(out, o.key)
      case Some(i) => out[i := o]
      case None => out + [o]
  }

  function MergeAdditional(base: seq<Observation>, incoming: seq<Observation>): seq<Observation> {
    if incoming == [] then base
    else MergeOne(MergeAdditional(base, incoming[..|incoming| - 1]), incoming[|incoming| - 1])
  }

  function MergeEntities(base: Entities, incoming: Entities): Entities {
    Entities(
      Newer(base.checkIn, incoming.checkIn),
      Newer(base.checkOut, incoming.checkOut),
      Newer(base.guestCount, incoming.guestCount),
      Newer(base.pets, incoming.pets),
      Newer(base.vehicles, incoming.vehicles),
      Newer(base.listingHint, incoming.listingHint),
      MergeAdditional(base.additional, incoming.additional))
  }

  // ----- the loop with its position index -----

  ghost predicate Indexes(index: map<string, nat>, out: seq<Observation>) {
    forall key :: PositionOf(out, key) == if key in index then Some(index[key]) else None
  }

  lemma {:induction false} PositionAfterWrite(out: seq<Observation>, at: nat, o: Observation, key: string)
    requires at < |out| && out[at].key == o.key
    ensures PositionOf(out[at := o], key) == PositionOf(out, key)
  {
    var n := |out| - 1;
    if at < n && out[n].key != key {
      assert out[at := o][..n] == out[..n][at := o];
      PositionAfterWrite(out[..n], at, o, key);
    } else if at == n {
      assert out[at := o][..n] == out[..n];
    }
  }

  method MergeAdditionalLoop(base: seq<Observation>, incoming: seq<Observation>) returns (out: seq<Observation>)
    ensures out == MergeAdditional(base, incoming)
  {
    if |incoming| == 0 {
      return base;
    }
    var index: map<string, nat> := map[];
    var i := 0;
    while i < |base|
      invariant 0 <= i <= |base|
      invariant Indexes(index, base[..i])
    {
      assert base[..i + 1][..i] == base[..i];
      index := index[base[i].key := i];
      i := i + 1;
    }
    assert base[..i] == base;
    out := base;
    i := 0;
    while i < |incoming|
      invariant 0 <= i <= |incoming|
      invariant out == MergeAdditional(base, incoming[..i])
      invariant Indexes(index, out)
    {
      var obs := incoming[i];
      assert incoming[..i + 1][..i] == incoming[..i];
      i := i + 1;
      if obs.key == "" {
        continue;
      }
      if obs.key in index {
        var pos := index[obs.key];
        assert PositionOf(out, obs.key) == Some(pos);
        forall key ensures PositionOf(out[pos := obs], key) == PositionOf(out, key) {
          PositionAfterWrite(out, pos, obs, key);
        }
        out := out[pos := obs];
        continue;
      }
      assert PositionOf(out, obs.key) == None;
      assert (out + [obs])[..|out|] == out;
      index := index[obs.key := |out|];
      out := out + [obs];
    }
    assert incoming[..i] == incoming;
  }

  // ----- what a whole history of merges yields -----

  lemma {:induction false} MergeIsAssociative(a: seq<Observation>, b: seq<Observation>, c: seq<Observation>)
    ensures MergeAdditional(MergeAdditional(a, b), c) == MergeAdditional(a, b + c)
  {
    if c == [] {
      assert b + c == b;
    } else {
      var init, last := c[..|c| - 1], c[|c| - 1];
      MergeIsAssociative(a, b, init);
      var all := b + c;
      assert all[..|all| - 1] == b + init && all[|all| - 1] == last;
    }
  }

  predicate DistinctKeys(obs: seq<Observation>) {
    forall i, j :: 0 <= i < j < |obs| ==> obs[i].key != obs[j].key
  }

  predicate KeysPresent(obs: seq<Observation>) {
    forall i :: 0 <= i < |obs| ==> obs[i].key != ""
  }

  /** Where key is first observed. */
  function FirstSeen(obs: seq<Observation>, key: string): (r: nat)
    ensures r <= |obs|
    ensures r < |obs| ==> obs[r].key == key
    ensures forall i :: 0 <= i < r ==> obs[i].key != key
  {
    if obs == [] then 0
    else
      var r := FirstSeen(obs[..|obs| - 1], key);
      if r < |obs| - 1 then r else if obs[|obs| - 1].key == key then |obs| - 1 else |obs|
  }

  ghost predicate LastValue(o: Observation, stream: seq<Observation>) {
    var p := PositionOf(stream, o.key);
    p.Some? && stream[p.value] == o
  }

  ghost predicate LastValues(bag: seq<Observation>, stream: seq<Observation>) {
    forall i :: 0 <= i < |bag| ==> LastValue(bag[i], stream)
  }

  ghost predicate Complete(bag: seq<Observation>, stream: seq<Observation>) {
    forall k :: 0 <= k < |stream| && stream[k].key != "" ==> PositionOf(bag, stream[k].key).Some?
  }

  ghost predicate FirstSeenOrder(bag: seq<Observation>, stream: seq<Observation>) {
    forall i, j :: 0 <= i < j < |bag| ==> FirstSeen(stream, bag[i].key) < FirstSeen(stream, bag[j].key)
  }

  /** bag holds exactly the non-empty keys of stream, once each, in the order they were first
      seen, and each with the value it was given last. */
  ghost predicate Digest(bag: seq<Observation>, stream: seq<Observation>) {
    && DistinctKeys(bag) && KeysPresent(bag)
    && LastValues(bag, stream) && Complete(bag, stream) && FirstSeenOrder(bag, stream)
  }

  lemma StreamSnoc(stream: seq<Observation>, o: Observation, key: string)
    ensures PositionOf(stream + [o], key) == if o.key == key then Some(|stream|) else PositionOf(stream, key)
    ensures FirstSeen(stream + [o], key) ==
            if FirstSeen(stream, key) < |stream| || o.key == key then FirstSeen(stream, key) else |stream| + 1
  {
    assert (stream + [o])[..|stream|] == stream;
  }

  lemma OneStepKeys(bag: seq<Observation>, o: Observation)
    requires DistinctKeys(bag) && KeysPresent(bag)
    ensures DistinctKeys(MergeOne(bag, o)) && KeysPresent(MergeOne(bag, o))
  {
  }

  lemma OneStepValues(bag: seq<Observation>, stream: seq<Observation>, o: Observation)
    requires KeysPresent(bag) && DistinctKeys(bag) && LastValues(bag, stream)
    ensures LastValues(MergeOne(bag, o), stream + [o])
  {
    var out := MergeOne(bag, o);
    forall i | 0 <= i < |out| ensures LastValue(out[i], stream + [o]) {
      StreamSnoc(stream, o, out[i].key);
      if out[i].key != o.key {
        assert out[i] == bag[i] && LastValue(bag[i], stream);
      }
    }
  }

  lemma OneStepComplete(bag: seq<Observation>, stream: seq<Observation>, o: Observation)
    requires Complete(bag, stream)
    ensures Complete(MergeOne(bag, o), stream + [o])
  {
    var s := stream + [o];
    forall k | 0 <= k < |s| && s[k].key != "" ensures PositionOf(MergeOne(bag, o), s[k].key).Some? {
      PositionAfterMerge(bag, o, s[k].key);
    }
  }

  lemma PositionAfterMerge(bag: seq<Observation>, o: Observation, key: string)
    requires key != ""
    ensures PositionOf(MergeOne(bag, o), key).Some? <==> key == o.key || PositionOf(bag, key).Some?
  {
    if o.key != "" {
      match PositionOf(bag, o.key)
      case Some(i) => PositionAfterWrite(bag, i, o, key);
      case None => assert (bag + [o])[..|bag|] == bag;
    }
  }

  lemma OneStepOrder(bag: seq<Observation>, stream: seq<Observation>, o: Observation)
    requires LastValues(bag, stream) && FirstSeenOrder(bag, stream) && Complete(bag, stream)
    ensures FirstSeenOrder(MergeOne(bag, o), stream + [o])
  {
    var out := MergeOne(bag, o);
    forall i, j | 0 <= i < j < |out| ensures FirstSeen(stream + [o], out[i].key) < FirstSeen(stream + [o], out[j].key) {
      assert out[i].key == bag[i].key && LastValue(bag[i], stream);
      StreamSnoc(stream, o, out[i].key);
      StreamSnoc(stream, o, out[j].key);
      if j < |bag| {
        assert out[j].key == bag[j].key && LastValue(bag[j], stream);
      }
    }
  }

  lemma DigestStep(bag: seq<Observation>, stream: seq<Observation>, o: Observation)
    requires Digest(bag, stream)
    ensures Digest(MergeOne(bag, o), stream + [o])
  {
    OneStepKeys(bag, o);
    OneStepValues(bag, stream, o);
    OneStepComplete(bag, stream, o);
    OneStepOrder(bag, stream, o);
  }

  /** Merging any stream of observations into an empty bag digests it. */
  lemma {:induction false} MergeDigests(stream: seq<Observation>)
    ensures Digest(MergeAdditional([], stream), stream)
  {
    if stream != [] {
      var n := |stream| - 1;
      MergeDigests(stream[..n]);
      DigestStep(MergeAdditional([], stream[..n]), stream[..n], stream[n]);
      assert stream[..n] + [stream[n]] == stream;
    }
  }

  /** Entities merged turn by turn, oldest first. */
  function MergeHistory(history: seq<Entities>): Entities {
    if history == [] then NO_ENTITIES
    else MergeEntities(MergeHistory(history[..|history| - 1]), history[|history| - 1])
  }

  /** All observations of a history, in order. */
  function Observed(history: seq<Entities>): seq<Observation> {
    if history == [] then []
    else Observed(history[..|history| - 1]) + history[|history| - 1].additional
  }

  /** The newest value of a field that is not nil. */
  function LatestOf<T>(history: seq<Entities>, field: Entities -> Option<T>): Option<T> {
    match Newest(history, (e: Entities) => field(e).Some?)
    case Some(i) => field(history[i])
    case None => None
  }

  lemma LatestStep<T>(history: seq<Entities>, field: Entities -> Option<T>)
    requires history != []
    ensures LatestOf(history, field) ==
            Newer(LatestOf(history[..|history| - 1], field), field(history[|history| - 1]))
  {
  }

  /** Over any history each typed field is its newest non-nil value, and the bag digests every
      observation ever made. */
  lemma {:induction false} HistoryKeepsNewest(history: seq<Entities>)
    ensures
      var m := MergeHistory(history);
      && m.checkIn == LatestOf(history, (e: Entities) => e.checkIn)
      && m.checkOut == LatestOf(history, (e: Entities) => e.checkOut)
      && m.guestCount == LatestOf(history, (e: Entities) => e.guestCount)
      && m.pets == LatestOf(history, (e: Entities) => e.pets)
      && m.vehicles == LatestOf(history, (e: Entities) => e.vehicles)
      && m.listingHint == LatestOf(history, (e: Entities) => e.listingHint)
      && m.additional == MergeAdditional([], Observed(history))
      && Digest(m.additional, Observed(history))
  {
    MergeDigests(Observed(history));
    if history != [] {
      var init := history[..|history| - 1];
      HistoryKeepsNewest(init);
      LatestStep(history, (e: Entities) => e.checkIn);
      LatestStep(history, (e: Entities) => e.checkOut);
      LatestStep(history, (e: Entities) => e.guestCount);
      LatestStep(history, (e: Entities) => e.pets);
      LatestStep(history, (e: Entities) => e.vehicles);
      LatestStep(history, (e: Entities) => e.listingHint);
      MergeIsAssociative([], Observed(init), history[|history| - 1].additional);
    }
  }
}
