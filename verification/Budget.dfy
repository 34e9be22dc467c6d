/** Daily spend accounting (internal/infrastructure/budget/watcher.go) and the runtime toggle it
    trips (internal/infrastructure/togglesource/source.go). Money is exact. */
module Budget {
  // ----- the toggle -----

  class Source {
    var enabled: bool

    constructor (initial: bool)
      ensures enabled == initial
    {
      enabled := initial;
    }

    method Current() returns (now: bool)
      ensures now == enabled
    {
      now := enabled;
    }

    method SetAutoResponse(to: bool) returns (prev: bool, now: bool)
      modifies this
      ensures prev == old(enabled) && now == enabled == to
    {
      prev := enabled;
      enabled := to;
      now := enabled;
    }
  }

  // ----- the watcher -----

  datatype Price = Price(promptPer1K: real, completionPer1K: real)

  /** A cap of zero or less disables tripping. */
  datatype Config = Config(cap: real, prices: map<string, Price>, unknownModel: Price)

  /** One reported model call, with the UTC day it was tallied on. */
  datatype Call = Call(model: string, ok: bool, prompt: int, completion: int, day: string)

  function Cost(cfg: Config, c: Call): real {
    var p := if c.model in cfg.prices then cfg.prices[c.model] else cfg.unknownModel;
    c.prompt as real / 1000.0 * p.promptPer1K + c.completion as real / 1000.0 * p.completionPer1K
  }

  function PriceOf(cfg: Config, model: string): Price {
    if model in cfg.prices then cfg.prices[model] else cfg.unknownModel
  }

  /** A thousand tokens cost their price per thousand, each kind its own, and cost adds up over
      tokens; a model without a price of its own is charged as the unknown one. */
  lemma CostIsPriced(cfg: Config, c: Call, prompt: int, completion: int)
    ensures Cost(cfg, c.(prompt := 1000, completion := 0)) == PriceOf(cfg, c.model).promptPer1K
    ensures Cost(cfg, c.(prompt := 0, completion := 1000)) == PriceOf(cfg, c.model).completionPer1K
    ensures Cost(cfg, c.(prompt := c.prompt + prompt, completion := c.completion + completion))
            == Cost(cfg, c) + Cost(cfg, c.(prompt := prompt, completion := completion))
  {
    var p := PriceOf(cfg, c.model);
    Distributes(c.prompt as real / 1000.0, prompt as real / 1000.0, p.promptPer1K);
    Distributes(c.completion as real / 1000.0, completion as real / 1000.0, p.completionPer1K);
    assert (c.prompt + prompt) as real / 1000.0 == c.prompt as real / 1000.0 + prompt as real / 1000.0;
    assert (c.completion + completion) as real / 1000.0 == c.completion as real / 1000.0 + completion as real / 1000.0;
  }

  lemma Distributes(x: real, y: real, z: real)
    ensures (x + y) * z == x * z + y * z
  {
  }

  /** The watcher's three mutable fields. */
  datatype Bucket = Bucket(day: string, spent: real, tripped: bool)

  const FRESH := Bucket("", 0.0, false)

  predicate Charged(cfg: Config, c: Call) {
    c.ok && Cost(cfg, c) > 0.0
  }

  /** The critical section: roll the day over, add, and decide whether to trip. */
  function Tallied(cfg: Config, b: Bucket, c: Call): Bucket
    requires Charged(cfg, c)
  {
    var b' := if c.day != b.day then Bucket(c.day, 0.0, false) else b;
    var spent := b'.spent + Cost(cfg, c);
    Bucket(c.day, spent, b'.tripped || (cfg.cap > 0.0 && spent >= cfg.cap))
  }

  /** Whether this call is the one that trips. */
  predicate Trips(cfg: Config, b: Bucket, c: Call)
    requires Charged(cfg, c)
  {
    Tallied(cfg, b, c).tripped && !(c.day == b.day && b.tripped)
  }

  class Watcher {
    const cfg: Config
    const toggles: Source
    var day: string
    var spent: real
    var tripped: bool

    constructor (cfg: Config, toggles: Source)
      ensures this.cfg == cfg && this.toggles == toggles && State() == FRESH
    {
      this.cfg, this.toggles := cfg, toggles;
      day, spent, tripped := "", 0.0, false;
    }

    function State(): Bucket
      reads this
    {
      Bucket(day, spent, tripped)
    }

    method Record(c: Call)
      modifies this, toggles
      ensures State() == if Charged(cfg, c) then Tallied(cfg, old(State()), c) else old(State())
      ensures toggles.enabled == (old(toggles.enabled) && !(Charged(cfg, c) && Trips(cfg, old(State()), c)))
    {
      if !c.ok {
        return;
      }
      var cost := Cost(cfg, c);
      if cost <= 0.0 {
        return;
      }
      if c.day != day {
        day := c.day;
        spent := 0.0;
        tripped := false;
      }
      spent := spent + cost;
      var shouldTrip := cfg.cap > 0.0 && !tripped && spent >= cfg.cap;
      if !shouldTrip {
        return;
      }
      tripped := true;
      var prev, now := toggles.SetAutoResponse(false);
    }
  }

  // ----- a history of charges, grouped by day -----

  /** A run of charged calls tallied on one day. */
  datatype DayRun = DayRun(day: string, calls: seq<Call>)

  function Grow(runs: seq<DayRun>, c: Call): seq<DayRun> {
    if runs != [] && runs[|runs| - 1].day == c.day then
      runs[..|runs| - 1] + [DayRun(c.day, runs[|runs| - 1].calls + [c])]
    else runs + [DayRun(c.day, [c])]
  }

  /** The charged calls, cut wherever the day changes. */
  function Days(cs: seq<Call>): seq<DayRun> {
    if cs == [] then [] else Grow(Days(cs[..|cs| - 1]), cs[|cs| - 1])
  }

  function Flatten(runs: seq<DayRun>): seq<Call> {
    if runs == [] then [] else Flatten(runs[..|runs| - 1]) + runs[|runs| - 1].calls
  }

  function Total(cfg: Config, cs: seq<Call>): real {
    if cs == [] then 0.0 else Total(cfg, cs[..|cs| - 1]) + Cost(cfg, cs[|cs| - 1])
  }

  predicate Reached(cfg: Config, cs: seq<Call>) {
    cfg.cap > 0.0 && Total(cfg, cs) >= cfg.cap
  }

  function ReachedDays(cfg: Config, runs: seq<DayRun>): nat {
    if runs == [] then 0
    else ReachedDays(cfg, runs[..|runs| - 1]) + (if Reached(cfg, runs[|runs| - 1].calls) then 1 else 0)
  }

  /** The watcher after a history of charged calls, and how often it tripped. */
  datatype Ledger = Ledger(bucket: Bucket, trips: nat)

  ghost predicate AllCharged(cfg: Config, cs: seq<Call>) {
    forall i :: 0 <= i < |cs| ==> Charged(cfg, cs[i])
  }

  function Charge(cfg: Config, l: Ledger, c: Call): Ledger
    requires Charged(cfg, c)
  {
    Ledger(Tallied(cfg, l.bucket, c), l.trips + (if Trips(cfg, l.bucket, c) then 1 else 0))
  }

  ghost function After(cfg: Config, cs: seq<Call>): Ledger
    requires AllCharged(cfg, cs)
  {
    if cs == [] then Ledger(FRESH, 0) else Charge(cfg, After(cfg, cs[..|cs| - 1]), cs[|cs| - 1])
  }

  /** What an exact set of books says about the history so far. */
  ghost predicate Books(cfg: Config, runs: seq<DayRun>, l: Ledger) {
    && l.trips == ReachedDays(cfg, runs)
    && (runs == [] ==> l.bucket == FRESH)
    && (runs != [] ==>
          var today := runs[|runs| - 1];
          l.bucket == Bucket(today.day, Total(cfg, today.calls), Reached(cfg, today.calls)))
  }

  lemma TotalSnoc(cfg: Config, cs: seq<Call>, c: Call)
    ensures Total(cfg, cs + [c]) == Total(cfg, cs) + Cost(cfg, c)
  {
    assert (cs + [c])[..|cs|] == cs;
  }

  lemma TotalOne(cfg: Config, c: Call)
    ensures Total(cfg, [c]) == Cost(cfg, c)
  {
    TotalSnoc(cfg, [], c);
    assert [] + [c] == [c];
  }

  lemma ReachedSnoc(cfg: Config, runs: seq<DayRun>, r: DayRun)
    ensures ReachedDays(cfg, runs + [r]) == ReachedDays(cfg, runs) + (if Reached(cfg, r.calls) then 1 else 0)
  {
    assert (runs + [r])[..|runs|] == runs;
  }

  lemma FlattenSnoc(runs: seq<DayRun>, r: DayRun)
    ensures Flatten(runs + [r]) == Flatten(runs) + r.calls
  {
    assert (runs + [r])[..|runs|] == runs;
  }

  lemma BooksSameDay(cfg: Config, older: seq<DayRun>, today: DayRun, l: Ledger, c: Call)
    requires Charged(cfg, c) && today.day == c.day && Books(cfg, older + [today], l)
    ensures Books(cfg, older + [DayRun(c.day, today.calls + [c])], Charge(cfg, l, c))
  {
    ReachedSnoc(cfg, older, today);
    ReachedSnoc(cfg, older, DayRun(c.day, today.calls + [c]));
    TotalSnoc(cfg, today.calls, c);
    hide Cost, Total, ReachedDays;
  }

  lemma BooksNewDay(cfg: Config, runs: seq<DayRun>, l: Ledger, c: Call)
    requires Charged(cfg, c) && Books(cfg, runs, l)
    requires runs != [] ==> runs[|runs| - 1].day != c.day
    ensures Books(cfg, runs + [DayRun(c.day, [c])], Charge(cfg, l, c))
  {
    ReachedSnoc(cfg, runs, DayRun(c.day, [c]));
    TotalOne(cfg, c);
    hide Cost, Total, ReachedDays;
  }

  /** Whatever the order of calls: spent is the exact total since the day last changed, tripped
      says whether that total has reached a positive cap, and the watcher has tripped exactly
      once for every run of one day that reached it. */
  lemma {:induction false} AccountsAreExact(cfg: Config, cs: seq<Call>)
    requires AllCharged(cfg, cs)
    ensures Books(cfg, Days(cs), After(cfg, cs))
  {
    hide Cost, Total, Reached, Charged;
    if cs != [] {
      var init, c := cs[..|cs| - 1], cs[|cs| - 1];
      AccountsAreExact(cfg, init);
      var runs, l := Days(init), After(cfg, init);
      hide Books, Charge;
      if runs != [] && runs[|runs| - 1].day == c.day {
        assert runs == runs[..|runs| - 1] + [runs[|runs| - 1]];
        BooksSameDay(cfg, runs[..|runs| - 1], runs[|runs| - 1], l, c);
      } else {
        BooksNewDay(cfg, runs, l, c);
      }
    }
  }

  /** The reported calls that cost something and did not fail. */
  function Counted(cfg: Config, cs: seq<Call>): seq<Call> {
    if cs == [] then []
    else
      var c := cs[|cs| - 1];
      Counted(cfg, cs[..|cs| - 1]) + (if c.ok && Cost(cfg, c) > 0.0 then [c] else [])
  }

  /** The watcher after every reported call, charged or not. */
  function Reported(cfg: Config, cs: seq<Call>): Ledger {
    if cs == [] then Ledger(FRESH, 0)
    else
      var before, c := Reported(cfg, cs[..|cs| - 1]), cs[|cs| - 1];
      if Charged(cfg, c) then Charge(cfg, before, c) else before
  }

  /** Reports of failed or free calls change nothing: the books are those of the counted calls. */
  lemma {:induction false} ReportsCountCharges(cfg: Config, cs: seq<Call>)
    ensures AllCharged(cfg, Counted(cfg, cs)) && Reported(cfg, cs) == After(cfg, Counted(cfg, cs))
    ensures Books(cfg, Days(Counted(cfg, cs)), Reported(cfg, cs))
  {
    if cs != [] {
      var init, c := cs[..|cs| - 1], cs[|cs| - 1];
      ReportsCountCharges(cfg, init);
      hide Cost, Books, Charge, Days;
      var counted := Counted(cfg, init);
      assert (counted + [c])[..|counted|] == counted;
      assert counted + [] == counted;
    }
    AccountsAreExact(cfg, Counted(cfg, cs));
  }

  /** Every run holds calls of its own day only, none is empty, and neighbours differ in day. */
  ghost predicate OneDayEach(runs: seq<DayRun>) {
    && (forall i, j :: 0 <= i < |runs| && 0 <= j < |runs[i].calls| ==> runs[i].calls[j].day == runs[i].day)
    && (forall i :: 0 <= i < |runs| ==> runs[i].calls != [])
    && (forall i :: 0 < i < |runs| ==> runs[i].day != runs[i - 1].day)
  }

  lemma NoDays()
    ensures OneDayEach([])
  {
  }

  lemma {:induction false} GrowKeepsOneDayEach(runs: seq<DayRun>, c: Call)
    requires OneDayEach(runs)
    ensures OneDayEach(Grow(runs, c))
    ensures Flatten(Grow(runs, c)) == Flatten(runs) + [c]
  {
    if runs != [] && runs[|runs| - 1].day == c.day {
      var older, today := runs[..|runs| - 1], runs[|runs| - 1];
      FlattenSnoc(older, DayRun(c.day, today.calls + [c]));
    } else {
      FlattenSnoc(runs, DayRun(c.day, [c]));
    }
  }

  /** The runs are the history itself, cut exactly where the day changes. */
  lemma {:induction false} DaysCutTheHistory(cs: seq<Call>)
    ensures Flatten(Days(cs)) == cs
    ensures OneDayEach(Days(cs))
  {
    hide OneDayEach, Grow;
    if cs == [] {
      NoDays();
    } else {
      DaysCutTheHistory(cs[..|cs| - 1]);
      GrowKeepsOneDayEach(Days(cs[..|cs| - 1]), cs[|cs| - 1]);
      assert cs == cs[..|cs| - 1] + [cs[|cs| - 1]];
    }
  }
}
