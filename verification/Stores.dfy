/** The idempotency store, the in-memory conversation store and the log-replayed file store
    (internal/infrastructure/store/memstore, internal/infrastructure/store/filestore). */
module Stores {
  import opened Domain
  import opened Memory
  import EntityMerge
  import ThreadMerge

  // ----- idempotency claims -----

  function ClaimKey(k: Key, postID: string): string {
    k + "|" + postID
  }

  class Idempotency {
    var claimed: map<string, bool>

    constructor ()
      ensures claimed == map[]
    {
      claimed := map[];
    }

    method SeenOrClaim(k: Key, postID: string) returns (already: bool)
      modifies this
      ensures already <==> ClaimKey(k, postID) in old(claimed)
      ensures claimed == if already then old(claimed) else old(claimed)[ClaimKey(k, postID) := false]
    {
      var key := k + "|" + postID;
      if key in claimed {
        return true;
      }
      claimed := claimed[key := false];
      return false;
    }

    method Complete(k: Key, postID: string)
      modifies this
      ensures claimed == old(claimed)[ClaimKey(k, postID) := true]
    {
      claimed := claimed[k + "|" + postID := true];
    }
  }

  /** The part of a that lies beyond the shorter key and its separator, if b goes on there. */
  ghost predicate Extends(a: Key, b: Key) {
    a + "|" <= b
  }

  /** Two different conversations can collide exactly when one key continues the other with '|'. */
  lemma ClaimsCollideIff(k: Key, k': Key)
    requires k != k'
    ensures (exists i, i' :: ClaimKey(k, i) == ClaimKey(k', i')) <==> Extends(k, k') || Extends(k', k)
  {
    if Extends(k, k') {
      ExtensionCollides(k, k');
    }
    if Extends(k', k) {
      ExtensionCollides(k', k);
    }
    forall i, i' | ClaimKey(k, i) == ClaimKey(k', i') ensures Extends(k, k') || Extends(k', k) {
      CollisionExtends(k, i, k', i');
    }
  }

  lemma ExtensionCollides(k: Key, k': Key)
    requires Extends(k, k')
    ensures ClaimKey(k, k'[|k| + 1..] + "|") == ClaimKey(k', "")
  {
    assert k' == (k + "|") + k'[|k| + 1..];
  }

  lemma CollisionExtends(k: Key, i: string, k': Key, i': string)
    requires k != k' && ClaimKey(k, i) == ClaimKey(k', i')
    ensures Extends(k, k') || Extends(k', k)
  {
    var c := ClaimKey(k, i);
    assert c[..|k|] == k && c[..|k'|] == k' && c[|k|] == '|' && c[|k'|] == '|';
    if |k| < |k'| {
      assert k'[..|k|] == c[..|k|] && k'[|k|] == c[|k|];
    } else if |k'| < |k| {
      assert k[..|k'|] == c[..|k'|] && k[|k'|] == c[|k'|];
    }
  }

  // ----- sorting by recency -----

  function Insert(sorted: seq<Record>, r: Record): (out: seq<Record>)
    ensures |out| == |sorted| + 1
  {
    if sorted == [] || r.updatedAt <= sorted[|sorted| - 1].updatedAt then sorted + [r]
    else Insert(sorted[..|sorted| - 1], r) + [sorted[|sorted| - 1]]
  }

  function SortedByRecent(rs: seq<Record>): (out: seq<Record>)
    ensures |out| == |rs|
  {
    if rs == [] then [] else Insert(SortedByRecent(rs[..|rs| - 1]), rs[|rs| - 1])
  }

  predicate NewestFirst(rs: seq<Record>) {
    forall i, j :: 0 <= i < j < |rs| ==> rs[i].updatedAt >= rs[j].updatedAt
  }

  lemma {:induction false} InsertKeepsOrder(sorted: seq<Record>, r: Record, top: int)
    requires NewestFirst(sorted) && r.updatedAt <= top
    requires forall i :: 0 <= i < |sorted| ==> sorted[i].updatedAt <= top
    ensures NewestFirst(Insert(sorted, r))
    ensures forall i :: 0 <= i < |sorted| + 1 ==> Insert(sorted, r)[i].updatedAt <= top
  {
    if sorted != [] && r.updatedAt > sorted[|sorted| - 1].updatedAt {
      var init, last := sorted[..|sorted| - 1], sorted[|sorted| - 1];
      InsertKeepsOrder(init, r, top);
      InsertAbove(init, r, last.updatedAt);
    }
  }

  lemma {:induction false} InsertAbove(sorted: seq<Record>, r: Record, floor: int)
    requires r.updatedAt >= floor && forall i :: 0 <= i < |sorted| ==> sorted[i].updatedAt >= floor
    ensures forall i :: 0 <= i < |sorted| + 1 ==> Insert(sorted, r)[i].updatedAt >= floor
  {
    if sorted != [] && r.updatedAt > sorted[|sorted| - 1].updatedAt {
      InsertAbove(sorted[..|sorted| - 1], r, floor);
    }
  }

  lemma {:induction false} InsertIsPermutation(sorted: seq<Record>, r: Record)
    ensures multiset(Insert(sorted, r)) == multiset(sorted) + multiset{r}
  {
    if sorted != [] && r.updatedAt > sorted[|sorted| - 1].updatedAt {
      var init := sorted[..|sorted| - 1];
      InsertIsPermutation(init, r);
      assert sorted == init + [sorted[|sorted| - 1]];
    }
  }

  function Latest(rs: seq<Record>): int {
    if rs == [] then 0 else Max(Latest(rs[..|rs| - 1]), rs[|rs| - 1].updatedAt)
  }

  lemma {:induction false} SortIsOrdered(rs: seq<Record>)
    ensures NewestFirst(SortedByRecent(rs))
    ensures forall i :: 0 <= i < |rs| ==> SortedByRecent(rs)[i].updatedAt <= Latest(rs)
  {
    if rs != [] {
      var init := rs[..|rs| - 1];
      SortIsOrdered(init);
      InsertKeepsOrder(SortedByRecent(init), rs[|rs| - 1], Latest(rs));
    }
  }

  lemma {:induction false} SortIsPermutation(rs: seq<Record>)
    ensures multiset(SortedByRecent(rs)) == multiset(rs)
  {
    if rs != [] {
      var init, last := rs[..|rs| - 1], rs[|rs| - 1];
      SortIsPermutation(init);
      InsertIsPermutation(SortedByRecent(init), last);
      assert rs == init + [last];
    }
  }

  /** The records of one instant, in their order. */
  function AtTime(rs: seq<Record>, at: int): seq<Record> {
    if rs == [] then []
    else AtTime(rs[..|rs| - 1], at) + (if rs[|rs| - 1].updatedAt == at then [rs[|rs| - 1]] else [])
  }

  lemma AtTimeSnoc(rs: seq<Record>, r: Record, at: int)
    ensures AtTime(rs + [r], at) == AtTime(rs, at) + (if r.updatedAt == at then [r] else [])
  {
    assert (rs + [r])[..|rs|] == rs;
  }

  lemma {:induction false} InsertIsStable(sorted: seq<Record>, r: Record, at: int)
    requires NewestFirst(sorted)
    ensures AtTime(Insert(sorted, r), at) == AtTime(sorted, at) + (if r.updatedAt == at then [r] else [])
  {
    if sorted == [] || r.updatedAt <= sorted[|sorted| - 1].updatedAt {
      AtTimeSnoc(sorted, r, at);
    } else {
      var init, last := sorted[..|sorted| - 1], sorted[|sorted| - 1];
      InsertIsStable(init, r, at);
      AtTimeSnoc(Insert(init, r), last, at);
      assert AtTime(init, at) + [] == AtTime(init, at);
    }
  }

  /** Records of the same instant keep their order. */
  lemma {:induction false} SortIsStable(rs: seq<Record>, at: int)
    ensures AtTime(SortedByRecent(rs), at) == AtTime(rs, at)
  {
    if rs != [] {
      SortIsStable(rs[..|rs| - 1], at);
      SortIsOrdered(rs[..|rs| - 1]);
      InsertIsStable(SortedByRecent(rs[..|rs| - 1]), rs[|rs| - 1], at);
    }
  }

  lemma {:induction false} InsertAt(sorted: seq<Record>, r: Record, j: nat)
    requires j <= |sorted|
    requires forall k :: j <= k < |sorted| ==> r.updatedAt > sorted[k].updatedAt
    requires j > 0 ==> r.updatedAt <= sorted[j - 1].updatedAt
    ensures Insert(sorted, r) == sorted[..j] + [r] + sorted[j..]
    decreases |sorted|
  {
    if j == |sorted| {
      assert sorted[..j] == sorted && sorted[j..] == [];
    } else {
      var init, last := sorted[..|sorted| - 1], sorted[|sorted| - 1];
      InsertAt(init, r, j);
      assert init[..j] == sorted[..j];
      assert init[j..] + [last] == sorted[j..];
      assert Insert(sorted, r) == (sorted[..j] + [r] + init[j..]) + [last];
    }
  }

  /** The in-place insertion sort with adjacent swaps. */
  method SortMemoryByRecent(rs: array<Record>)
    modifies rs
    ensures rs[..] == SortedByRecent(old(rs[..]))
  {
    ghost var was := rs[..];
    var i := 1;
    if rs.Length == 0 {
      return;
    }
    assert was[..1] == [was[0]] && was[..1][..0] == [];
    while i < rs.Length
      invariant 1 <= i <= rs.Length
      invariant rs[..i] == SortedByRecent(was[..i])
      invariant forall k :: i <= k < rs.Length ==> rs[k] == was[k]
    {
      assert was[..i + 1][..i] == was[..i];
      SinkLast(rs, i);
      i := i + 1;
    }
    assert rs[..i] == rs[..] && was[..i] == was;
  }

  /** The inner loop: carry entry i left past every strictly older one. */
  method SinkLast(rs: array<Record>, i: nat)
    requires i < rs.Length
    modifies rs
    ensures rs[..i + 1] == Insert(old(rs[..i]), old(rs[i]))
    ensures forall k :: i < k < rs.Length ==> rs[k] == old(rs[k])
  {
    ghost var sorted, r := rs[..i], rs[i];
    var j := i;
    while j > 0 && rs[j].updatedAt > rs[j - 1].updatedAt
      invariant 0 <= j <= i && rs[j] == r
      invariant forall k :: 0 <= k < j ==> rs[k] == sorted[k]
      invariant forall k :: j < k <= i ==> rs[k] == sorted[k - 1]
      invariant forall k :: j <= k < i ==> r.updatedAt > sorted[k].updatedAt
      invariant forall k :: i < k < rs.Length ==> rs[k] == old(rs[k])
    {
      rs[j - 1], rs[j] := rs[j], rs[j - 1];
      j := j - 1;
    }
    InsertAt(sorted, r, j);
    hide Insert;
    assert rs[..i + 1] == sorted[..j] + [r] + sorted[j..];
  }

  // ----- the record map and the guest index, as functions -----

  type Index = map<string, seq<Key>>

  function Lookup(records: map<Key, Record>, k: Key): Record {
    if k in records then records[k] else EMPTY_RECORD
  }

  function Bucket(byGuest: Index, guest: string): seq<Key> {
    if guest in byGuest then byGuest[guest] else []
  }

  function Indexed(byGuest: Index, guest: string, k: Key): Index {
    if guest == "" || k in Bucket(byGuest, guest) then byGuest
    else byGuest[guest := Bucket(byGuest, guest) + [k]]
  }

  /** The records behind a list of keys. */
  function Rows(records: map<Key, Record>, keys: seq<Key>): (rows: seq<Record>)
    ensures |rows| == |keys|
  {
    if keys == [] then [] else Rows(records, keys[..|keys| - 1]) + [Lookup(records, keys[|keys| - 1])]
  }

  function Listed(records: map<Key, Record>, keys: seq<Key>, limit: int): seq<Record> {
    var sorted := SortedByRecent(Rows(records, keys));
    if 0 < limit < |sorted| then sorted[..limit] else sorted
  }

  // ----- the in-memory store -----

  class ConversationMemory {
    var records: map<Key, Record>
    var byGuest: Index

    constructor ()
      ensures records == map[] && byGuest == map[]
    {
      records, byGuest := map[], map[];
    }

    method Get(k: Key) returns (r: Record)
      ensures r == Lookup(records, k)
    {
      r := Lookup(records, k);
    }

    method Update(k: Key, mut: Record -> Record)
      modifies this
      ensures records == old(records)[k := mut(Lookup(old(records), k))]
      ensures byGuest == Indexed(old(byGuest), mut(Lookup(old(records), k)).guestID, k)
    {
      var r := mut(Lookup(records, k));
      records := records[k := r];
      if r.guestID != "" {
        if k !in Bucket(byGuest, r.guestID) {
          byGuest := byGuest[r.guestID := Bucket(byGuest, r.guestID) + [k]];
        }
      }
    }

    method ListByGuest(guest: string, limit: int) returns (out: seq<Record>)
      ensures out == Listed(records, Bucket(byGuest, guest), limit)
    {
      var keys := Bucket(byGuest, guest);
      var rows: seq<Record> := [];
      var i := 0;
      while i < |keys|
        invariant 0 <= i <= |keys|
        invariant rows == Rows(records, keys[..i])
      {
        assert keys[..i + 1][..i] == keys[..i];
        rows := rows + [Lookup(records, keys[i])];
        i := i + 1;
      }
      assert keys[..i] == keys;
      var rs := new Record[|rows|](j requires 0 <= j < |rows| => rows[j]);
      assert rs[..] == rows;
      SortMemoryByRecent(rs);
      out := rs[..];
      if limit > 0 && |out| > limit {
        out := out[..limit];
      }
    }
  }

  /** The rows are the records of the keys, in their order. */
  lemma {:induction false} RowsAt(records: map<Key, Record>, keys: seq<Key>, i: nat)
    requires i < |keys|
    ensures Rows(records, keys)[i] == if keys[i] in records then records[keys[i]] else EMPTY_RECORD
  {
    if i < |keys| - 1 {
      RowsAt(records, keys[..|keys| - 1], i);
    }
  }

  /** Without a positive limit the listing holds every row. */
  lemma UnlimitedListing(records: map<Key, Record>, keys: seq<Key>, limit: int)
    requires limit <= 0
    ensures NewestFirst(Listed(records, keys, limit))
    ensures multiset(Listed(records, keys, limit)) == multiset(Rows(records, keys))
  {
    SortIsOrdered(Rows(records, keys));
    SortIsPermutation(Rows(records, keys));
  }

  /** A listing is newest first, no longer than asked, and nothing left out is newer. */
  lemma ListingIsTopOfGuest(records: map<Key, Record>, keys: seq<Key>, limit: int)
    requires limit > 0
    ensures
      var n := Min(limit, |keys|);
      var out, rest := Listed(records, keys, limit), SortedByRecent(Rows(records, keys))[n..];
      && |out| == n && NewestFirst(out)
      && multiset(out) + multiset(rest) == multiset(Rows(records, keys))
      && forall i, j :: 0 <= i < |out| && 0 <= j < |rest| ==> out[i].updatedAt >= rest[j].updatedAt
  {
    var rows := Rows(records, keys);
    SortIsOrdered(rows);
    SortIsPermutation(rows);
    hide SortedByRecent, Rows;
    var sorted := SortedByRecent(rows);
    var n := Min(limit, |keys|);
    assert sorted == sorted[..n] + sorted[n..];
    assert sorted[..|sorted|] == sorted;
  }

  // ----- when the guest index is right -----

  predicate NoRepeats(keys: seq<Key>) {
    forall i, j :: 0 <= i < j < |keys| ==> keys[i] != keys[j]
  }

  /** Every bucket lists exactly the conversations whose record carries that guest, once each. */
  ghost predicate IndexExact(records: map<Key, Record>, byGuest: Index) {
    && (forall g :: NoRepeats(Bucket(byGuest, g)))
    && (forall g, k :: k in Bucket(byGuest, g) <==> g != "" && k in records && records[k].guestID == g)
  }

  /** An update keeps the index exact if and only if it does not move the conversation away from
      a guest it already belongs to. */
  lemma UpdateKeepsIndexIff(records: map<Key, Record>, byGuest: Index, k: Key, r: Record)
    requires IndexExact(records, byGuest)
    ensures IndexExact(records[k := r], Indexed(byGuest, r.guestID, k))
            <==> Lookup(records, k).guestID in {"", r.guestID}
  {
    var owner := Lookup(records, k).guestID;
    var records', byGuest' := records[k := r], Indexed(byGuest, r.guestID, k);
    if owner !in {"", r.guestID} {
      assert k in Bucket(byGuest, owner);
      assert Bucket(byGuest', owner) == Bucket(byGuest, owner);
      assert k in Bucket(byGuest', owner) && records'[k].guestID != owner;
    } else {
      forall g ensures NoRepeats(Bucket(byGuest', g)) {
        assert NoRepeats(Bucket(byGuest, g));
      }
      forall g, x ensures x in Bucket(byGuest', g) <==> g != "" && x in records' && records'[x].guestID == g {
        assert x in Bucket(byGuest, g) <==> g != "" && x in records && records[x].guestID == g;
      }
    }
  }

  /** Indexing never reorders or forgets: each guest's list only ever grows at its end. */
  lemma IndexGrowsAtTheEnd(byGuest: Index, guest: string, k: Key, other: string)
    ensures Bucket(byGuest, other) <= Bucket(Indexed(byGuest, guest, k), other)
    ensures guest != "" ==> k in Bucket(Indexed(byGuest, guest, k), guest)
    ensures other != guest ==> Bucket(Indexed(byGuest, guest, k), other) == Bucket(byGuest, other)
  {
  }

  // ----- the append-only log -----

  /** The line format, as an arbitrary encoding. */
  datatype Codec = Codec(encode: Record -> string, decode: string -> Option<Record>)

  /** The scanner's buffer, which must hold a line and its line end. */
  const SCAN_LIMIT := 4 * 1024 * 1024

  predicate Scannable(line: string) {
    ByteLength(line) < SCAN_LIMIT
  }

  /** What the lines of a log add up to: later lines win, unreadable lines are skipped. */
  function Replayed(c: Codec, log: seq<string>): map<Key, Record> {
    if log == [] then map[]
    else
      var before := Replayed(c, log[..|log| - 1]);
      match c.decode(log[|log| - 1])
      case Some(r) => before[r.key := r]
      case None => before
  }

  /** What opening a log yields: nothing at all when one line is too long to scan. */
  ghost function Hydrated(c: Codec, log: seq<string>): Option<map<Key, Record>> {
    if forall i :: 0 <= i < |log| ==> Scannable(log[i]) then Some(Replayed(c, log)) else None
  }

  class FileMemory {
    const codec: Codec
    var log: seq<string>
    var records: map<Key, Record>
    var byGuest: Index

    constructor (codec: Codec, log: seq<string>, records: map<Key, Record>, byGuest: Index)
      ensures this.codec == codec && this.log == log && this.records == records && this.byGuest == byGuest
    {
      this.codec, this.log, this.records, this.byGuest := codec, log, records, byGuest;
    }

    /** Opening a store hydrates it from whatever the log holds, or fails with it. */
    static method Open(codec: Codec, log: seq<string>) returns (store: Option<FileMemory>)
      ensures store.None? <==> Hydrated(codec, log).None?
      ensures store.Some? ==>
        && fresh(store.value) && store.value.codec == codec && store.value.log == log
        && Some(store.value.records) == Hydrated(codec, log)
        && IndexExact(store.value.records, store.value.byGuest)
    {
      var records := Hydrate(codec, log);
      if records.None? {
        return None;
      }
      var byGuest := IndexFromRecords(records.value);
      var reopened := new FileMemory(codec, log, records.value, byGuest);
      return Some(reopened);
    }

    /** The snapshot is appended whatever its length. */
    method Update(k: Key, mut: Record -> Record)
      modifies this
      ensures records == old(records)[k := mut(Lookup(old(records), k))]
      ensures byGuest == Indexed(old(byGuest), records[k].guestID, k)
      ensures log == old(log) + [codec.encode(records[k])]
    {
      var r := mut(Lookup(records, k));
      records := records[k := r];
      IndexByGuest(r.guestID, k);
      log := log + [codec.encode(r)];
    }

    method IndexByGuest(guest: string, k: Key)
      modifies this`byGuest
      ensures byGuest == Indexed(old(byGuest), guest, k)
    {
      if guest == "" {
        return;
      }
      var keys := Bucket(byGuest, guest);
      var i := 0;
      while i < |keys|
        invariant 0 <= i <= |keys|
        invariant k !in keys[..i]
      {
        if keys[i] == k {
          return;
        }
        i := i + 1;
      }
      byGuest := byGuest[guest := keys + [k]];
    }
  }

  /** The scan loop; a line that does not fit the scanner's buffer ends it with an error. */
  method Hydrate(c: Codec, log: seq<string>) returns (records: Option<map<Key, Record>>)
    ensures records == Hydrated(c, log)
  {
    hide ByteLength;
    var recs: map<Key, Record> := map[];
    var i := 0;
    while i < |log|
      invariant 0 <= i <= |log|
      invariant recs == Replayed(c, log[..i])
      invariant forall j :: 0 <= j < i ==> Scannable(log[j])
    {
      if !Scannable(log[i]) {
        return None;
      }
      assert log[..i + 1][..i] == log[..i];
      match c.decode(log[i]) {
        case Some(rec) => recs := recs[rec.key := rec];
        case None =>
      }
      i := i + 1;
    }
    assert log[..i] == log;
    return Some(recs);
  }

  /** Rebuilding the guest index visits the records in no particular order. */
  method IndexFromRecords(records: map<Key, Record>) returns (byGuest: Index)
    ensures IndexExact(records, byGuest)
  {
    byGuest := map[];
    var todo := records.Keys;
    ghost var done: map<Key, Record> := map[];
    while todo != {}
      invariant todo <= records.Keys
      invariant done == map k | k in records && k !in todo :: records[k]
      invariant IndexExact(done, byGuest)
      decreases |todo|
    {
      var k :| k in todo;
      UpdateKeepsIndexIff(done, byGuest, k, records[k]);
      if records[k].guestID != "" {
        var g := records[k].guestID;
        assert k !in Bucket(byGuest, g);
        byGuest := byGuest[g := Bucket(byGuest, g) + [k]];
      }
      done := done[k := records[k]];
      todo := todo - {k};
    }
    assert done == records;
  }

  /** One successful update of the store. */
  datatype Write = Write(key: Key, mut: Record -> Record)

  ghost function LiveAfter(writes: seq<Write>): map<Key, Record> {
    if writes == [] then map[]
    else
      var before, w := LiveAfter(writes[..|writes| - 1]), writes[|writes| - 1];
      before[w.key := w.mut(Lookup(before, w.key))]
  }

  ghost function LogAfter(c: Codec, writes: seq<Write>): seq<string> {
    if writes == [] then []
    else
      var before, w := writes[..|writes| - 1], writes[|writes| - 1];
      LogAfter(c, before) + [c.encode(w.mut(Lookup(LiveAfter(before), w.key)))]
  }

  /** The record the n-th update stored. */
  ghost function WrittenAt(writes: seq<Write>, n: nat): Record
    requires n < |writes|
  {
    writes[n].mut(Lookup(LiveAfter(writes[..n]), writes[n].key))
  }

  /** The n-th record carries the key it is stored under and reads back from its line. */
  ghost predicate ReadsBack(c: Codec, writes: seq<Write>, n: nat)
    requires n < |writes|
  {
    var r := WrittenAt(writes, n);
    r.key == writes[n].key && c.decode(c.encode(r)) == Some(r)
  }

  lemma PrefixWrites(writes: seq<Write>, n: nat)
    requires n < |writes| - 1
    ensures WrittenAt(writes[..|writes| - 1], n) == WrittenAt(writes, n)
  {
    assert writes[..|writes| - 1][..n] == writes[..n];
  }

  lemma LogHoldsWrites(c: Codec, writes: seq<Write>, n: nat)
    requires n < |writes|
    ensures |LogAfter(c, writes)| == |writes| && LogAfter(c, writes)[n] == c.encode(WrittenAt(writes, n))
  {
    if n < |writes| - 1 {
      LogHoldsWrites(c, writes[..|writes| - 1], n);
      PrefixWrites(writes, n);
    } else if n > 0 {
      LogHoldsWrites(c, writes[..n], n - 1);
    }
  }

  lemma {:induction false} ReplayIsLive(c: Codec, writes: seq<Write>)
    requires forall n :: 0 <= n < |writes| ==> ReadsBack(c, writes, n)
    ensures Replayed(c, LogAfter(c, writes)) == LiveAfter(writes)
  {
    if writes != [] {
      var before := writes[..|writes| - 1];
      forall n | 0 <= n < |before| ensures ReadsBack(c, before, n) {
        assert ReadsBack(c, writes, n);
        PrefixWrites(writes, n);
      }
      ReplayIsLive(c, before);
      var log := LogAfter(c, writes);
      assert log[..|log| - 1] == LogAfter(c, before);
      assert ReadsBack(c, writes, |writes| - 1);
    }
  }

  /** For any sequence of updates whose records read back: reopening the log succeeds if and only
      if every line written is short enough to scan, and then rebuilds exactly the live map. */
  lemma ReplayEqualsLive(c: Codec, writes: seq<Write>)
    requires forall n :: 0 <= n < |writes| ==> ReadsBack(c, writes, n)
    ensures Hydrated(c, LogAfter(c, writes))
            == if forall n :: 0 <= n < |writes| ==> Scannable(c.encode(WrittenAt(writes, n))) then Some(LiveAfter(writes))
               else None
  {
    hide Scannable;
    ReplayIsLive(c, writes);
    hide Replayed, LiveAfter, LogAfter, WrittenAt, ReadsBack;
    var log := LogAfter(c, writes);
    if writes != [] {
      LogHoldsWrites(c, writes, 0);
    }
    forall n: nat | n < |writes| ensures |log| == |writes| && log[n] == c.encode(WrittenAt(writes, n)) {
      LogHoldsWrites(c, writes, n);
    }
  }

  /** The orchestrator's mutator always stamps the turn's key. */
  lemma ClosingKeepsKey(lim: Limits, c: Closing, s: Summarizer, writes: seq<Write>, n: nat)
    requires n < |writes| && writes[n] == Write(c.input.turn.key, r => Closed(lim, r, c, s))
    ensures WrittenAt(writes, n).key == writes[n].key
  {
  }

  function BodyLength(ms: seq<Message>): nat {
    if ms == [] then 0 else BodyLength(ms[..|ms| - 1]) + |ms[|ms| - 1].body|
  }

  /** A line spells out every body of the thread it stores, as JSON does. */
  ghost predicate SpellsBodies(c: Codec) {
    forall r :: |c.encode(r)| >= BodyLength(r.thread)
  }

  /** Nothing stops a thread from growing past what reopening can scan: the update that stores it
      succeeds, and the log can never be opened again. */
  lemma LongThreadBlocksReopening(c: Codec, writes: seq<Write>, n: nat)
    requires SpellsBodies(c) && n < |writes| && BodyLength(WrittenAt(writes, n).thread) >= SCAN_LIMIT
    ensures Hydrated(c, LogAfter(c, writes)).None?
  {
    var line := c.encode(WrittenAt(writes, n));
    LogHoldsWrites(c, writes, n);
    BytesCountAscii(line);
    assert !Scannable(LogAfter(c, writes)[n]);
  }

  /** A burst of guest messages that share one body. */
  function Burst(n: nat, body: string): seq<Message> {
    if n == 0 then [] else Burst(n - 1, body) + [Message(seq(n, i => 'a'), body, 0, Guest)]
  }

  lemma {:induction false} BurstWeighs(n: nat, body: string)
    requires |body| == 900_000
    ensures |Burst(n, body)| == n && BodyLength(Burst(n, body)) == n * 900_000
  {
    if n > 0 {
      var init, m := Burst(n - 1, body), Message(seq(n, i => 'a'), body, 0, Guest);
      BurstWeighs(n - 1, body);
      BodyLengthSnoc(init, m);
    }
  }

  lemma BodyLengthSnoc(ms: seq<Message>, m: Message)
    ensures BodyLength(ms + [m]) == BodyLength(ms) + |m.body|
  {
    assert (ms + [m])[..|ms|] == ms;
  }

  lemma {:induction false} BurstIsAppended(n: nat, body: string)
    ensures |Burst(n, body)| == n && AppendAll([], Burst(n, body)) == Burst(n, body)
    ensures forall id :: id in ThreadMerge.PostIDs(Burst(n, body)) ==> |id| <= n
  {
    if n > 0 {
      var init, m := Burst(n - 1, body), Message(seq(n, i => 'a'), body, 0, Guest);
      BurstIsAppended(n - 1, body);
      assert Burst(n, body)[..n - 1] == init;
      ThreadMerge.PostIDsSnoc(init, m);
      hide ThreadMerge.PostIDs;
    }
  }

  /** One turn of five messages of 900,000 characters, each within the webhook's limit of 1 MiB, is
      enough. */
  lemma FiveLongMessagesBlockReopening(c: Codec, lim: Limits, body: string, conv: Conversation, cls: Classification)
    requires SpellsBodies(c) && lim.cap >= 5 && |body| == 900_000
    ensures
      var turn := Turn("k", Burst(5, body), "aaaaa");
      var closing := Closing(Input(turn, conv, "", 0), cls, None, false);
      Hydrated(c, LogAfter(c, [Write("k", r => Closed(lim, r, closing, Absent))])).None?
  {
    var turn := Turn("k", Burst(5, body), "aaaaa");
    var closing := Closing(Input(turn, conv, "", 0), cls, None, false);
    var writes := [Write("k", r => Closed(lim, r, closing, Absent))];
    BurstWeighs(5, body);
    BurstIsAppended(5, body);
    hide Burst, BodyLength, AppendAll, EntityMerge.MergeEntities;
    assert writes[..0] == [];
    assert WrittenAt(writes, 0).thread == Burst(5, body);
    LongThreadBlocksReopening(c, writes, 0);
  }

  ghost function IndexAfter(writes: seq<Write>): Index {
    if writes == [] then map[]
    else
      var before, w := writes[..|writes| - 1], writes[|writes| - 1];
      Indexed(IndexAfter(before), w.mut(Lookup(LiveAfter(before), w.key)).guestID, w.key)
  }

  /** No write of the history moves a conversation from one guest to another. */
  ghost predicate GuestsAreStable(writes: seq<Write>) {
    forall n :: 0 <= n < |writes| ==> GuestStableAt(writes, n)
  }

  ghost predicate GuestStableAt(writes: seq<Write>, n: nat)
    requires n < |writes|
  {
    var r := Lookup(LiveAfter(writes[..n]), writes[n].key);
    r.guestID in {"", writes[n].mut(r).guestID}
  }

  /** Over such a history the live index is exact. */
  lemma {:induction false} StableGuestsKeepIndexExact(writes: seq<Write>)
    requires GuestsAreStable(writes)
    ensures IndexExact(LiveAfter(writes), IndexAfter(writes))
  {
    if writes != [] {
      var n := |writes| - 1;
      var before := writes[..n];
      forall i | 0 <= i < |before| ensures GuestStableAt(before, i) {
        assert GuestStableAt(writes, i);
        assert before[..i] == writes[..i];
      }
      StableGuestsKeepIndexExact(before);
      assert GuestStableAt(writes, n);
      var live := LiveAfter(before);
      UpdateKeepsIndexIff(live, IndexAfter(before), writes[n].key, writes[n].mut(Lookup(live, writes[n].key)));
    }
  }

  lemma InBucketIff(records: map<Key, Record>, byGuest: Index, guest: string, k: Key)
    requires IndexExact(records, byGuest)
    ensures k in Bucket(byGuest, guest) <==> guest != "" && k in records && records[k].guestID == guest
    ensures NoRepeats(Bucket(byGuest, guest))
  {
    hide Bucket, NoRepeats;
    assert NoRepeats(Bucket(byGuest, guest));
    assert k in Bucket(byGuest, guest) ==> guest != "" && k in records && records[k].guestID == guest;
    assert guest != "" && k in records && records[k].guestID == guest ==> k in Bucket(byGuest, guest);
  }

  /** Then the index a reopened log gets, exact by FileMemory.Open, lists for every guest the same
      conversations as the live one. */
  lemma ReopenedIndexAgrees(writes: seq<Write>, reopened: Index, guest: string, k: Key)
    requires GuestsAreStable(writes) && IndexExact(LiveAfter(writes), reopened)
    ensures k in Bucket(reopened, guest) <==> k in Bucket(IndexAfter(writes), guest)
    ensures NoRepeats(Bucket(reopened, guest)) && NoRepeats(Bucket(IndexAfter(writes), guest))
  {
    hide IndexExact, Bucket, NoRepeats, LiveAfter, IndexAfter, GuestsAreStable;
    StableGuestsKeepIndexExact(writes);
    InBucketIff(LiveAfter(writes), reopened, guest, k);
    InBucketIff(LiveAfter(writes), IndexAfter(writes), guest, k);
  }
}
