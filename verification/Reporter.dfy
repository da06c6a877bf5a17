/** Consumption reports (cmds/modules/provisiond/reporter.go): how counters become a report, the
    windows of the reports, and the queue they leave through. */
module Reporter {
  import opened Workloads
  import opened Runs
  import opened Sums

  // ---------- aggregation ----------

  const LAST_REPORTED: string := ".last-reported-ts"

  /** Counter values of the metrics store never decrease, so a difference is never negative. */
  type Reading = r: real | 0.0 <= r

  datatype Consumption = Consumption(contract: nat, timestamp: nat, window: nat, nru: nat)

  type Report = seq<Consumption>

  /** The contract in a metric key, if the key parses as a workload id. */
  type Parser = string -> Option<nat>

  /** The truncated counter of a key. */
  function CountOf(values: map<string, Reading>): string -> nat
  {
    key => if key in values then values[key].Floor else 0
  }

  /** The contract a key counts for: none for the timestamp key and for keys that do not parse. */
  function ContractOf(parse: Parser): string -> Option<nat>
  {
    key => if key == LAST_REPORTED then None else parse(key)
  }

  /** What a key adds to the total. */
  ghost function Share<K>(count: K -> nat, contractOf: K -> Option<nat>): K -> nat
  {
    key => if contractOf(key).Some? then count(key) else 0
  }

  /** What a key adds to one contract. */
  ghost function ShareOf<K>(count: K -> nat, contractOf: K -> Option<nat>, contract: nat): K -> nat
  {
    key => if contractOf(key) == Some(contract) then count(key) else 0
  }

  ghost function NruOf(reports: map<nat, Consumption>): nat -> nat
  {
    c => if c in reports then reports[c].nru else 0
  }

  function TotalNru(report: Report): nat
  {
    if report == [] then 0 else TotalNru(report[..|report| - 1]) + report[|report| - 1].nru
  }

  /** The entries of the keys read so far: one for each contract of such a key, with the sum of the
      contract's own counters. */
  ghost predicate Entries<K>(count: K -> nat, contractOf: K -> Option<nat>, ts: nat, window: nat, read: set<K>,
                             reports: map<nat, Consumption>)
  {
    forall c :: Entry(ts, window, SumOver(ShareOf(count, contractOf, c), read), reports, c)
  }

  predicate Entry(ts: nat, window: nat, sum: nat, reports: map<nat, Consumption>, c: nat)
  {
    if c in reports then reports[c] == Consumption(c, ts, window, Wrap(sum)) else sum == 0
  }

  /** Unless the total overflows, the entries add up to it. */
  ghost predicate Conserved<K>(count: K -> nat, contractOf: K -> Option<nat>, read: set<K>, reports: map<nat,
                               Consumption>)
  {
    SumOver(Share(count, contractOf), read) < U64 ==>
      SumOver(NruOf(reports), reports.Keys) == SumOver(Share(count, contractOf), read)
  }

  lemma SharePut<K>(count: K -> nat, contractOf: K -> Option<nat>, read: set<K>, key: K, c: nat)
    requires key !in read
    ensures SumOver(ShareOf(count, contractOf, c), read + {key})
      == SumOver(ShareOf(count, contractOf, c), read) + if contractOf(key) == Some(c) then count(key) else 0
    ensures SumOver(Share(count, contractOf), read + {key})
      == SumOver(Share(count, contractOf), read) + if contractOf(key).Some? then count(key) else 0
  {
    SumPut(ShareOf(count, contractOf, c), read, key);
    SumPut(Share(count, contractOf), read, key);
  }

  lemma ReadNothing<K>(count: K -> nat, contractOf: K -> Option<nat>, ts: nat, window: nat, read: set<K>, key: K,
                       reports: map<nat, Consumption>)
    requires Entries(count, contractOf, ts, window, read, reports) && Conserved(count, contractOf, read, reports)
    requires key !in read && contractOf(key) == None
    ensures Entries(count, contractOf, ts, window, read + {key}, reports)
    ensures Conserved(count, contractOf, read + {key}, reports)
  {
    forall c { SharePut(count, contractOf, read, key, c); }
    SharePut(count, contractOf, read, key, 0);
  }

  function AddTo(reports: map<nat, Consumption>, contract: nat, ts: nat, window: nat, nru: nat): map<nat, Consumption>
  {
    var rep := if contract in reports then reports[contract] else Consumption(contract, ts, window, 0);
    reports[contract := rep.(nru := Wrap(rep.nru + nru))]
  }

  lemma AddToEntry(reports: map<nat, Consumption>, contract: nat, ts: nat, window: nat, sum: nat, amount: nat)
    requires Entry(ts, window, sum, reports, contract)
    ensures var next := AddTo(reports, contract, ts, window, amount);
      && Entry(ts, window, sum + amount, next, contract)
      && forall c :: c != contract ==> (c in next <==> c in reports) && (c in next ==> next[c] == reports[c])
  {
    WrapSmall(0);
    WrapAdd(sum, amount);
  }

  lemma ReadEntries<K>(count: K -> nat, contractOf: K -> Option<nat>, ts: nat, window: nat, read: set<K>, key: K,
                       reports: map<nat, Consumption>)
    requires Entries(count, contractOf, ts, window, read, reports)
    requires key !in read && contractOf(key).Some?
    ensures var next := AddTo(reports, contractOf(key).value, ts, window, count(key));
      Entries(count, contractOf, ts, window, read + {key}, next)
  {
    var contract := contractOf(key).value;
    AddToEntry(reports, contract, ts, window, SumOver(ShareOf(count, contractOf, contract), read), count(key));
    var next := AddTo(reports, contract, ts, window, count(key));
    forall c ensures Entry(ts, window, SumOver(ShareOf(count, contractOf, c), read + {key}), next, c) {
      SharePut(count, contractOf, read, key, c);
      assert Entry(ts, window, SumOver(ShareOf(count, contractOf, c), read), reports, c);
    }
  }

  lemma OwnNru<K>(count: K -> nat, contractOf: K -> Option<nat>, ts: nat, window: nat, read: set<K>, reports: map<nat,
                  Consumption>, c: nat)
    requires Entries(count, contractOf, ts, window, read, reports)
    requires SumOver(ShareOf(count, contractOf, c), read) < U64
    ensures NruOf(reports)(c) == SumOver(ShareOf(count, contractOf, c), read)
  {
    var sum := SumOver(ShareOf(count, contractOf, c), read);
    WrapSmall(sum);
    assert Entry(ts, window, sum, reports, c);
  }

  lemma ReadConserved<K>(count: K -> nat, contractOf: K -> Option<nat>, ts: nat, window: nat, read: set<K>, key: K,
                         reports: map<nat, Consumption>)
    requires Entries(count, contractOf, ts, window, read, reports) && Conserved(count, contractOf, read, reports)
    requires key !in read && contractOf(key).Some?
    ensures Conserved(count, contractOf, read + {key}, AddTo(reports, contractOf(key).value, ts, window, count(key)))
  {
    var contract, amount := contractOf(key).value, count(key);
    var total, own := SumOver(Share(count, contractOf), read), SumOver(ShareOf(count, contractOf, contract), read);
    assert SumOver(Share(count, contractOf), read + {key}) == total + amount by {
      SharePut(count, contractOf, read, key, contract);
    }
    if total + amount < U64 {
      ShareBelow(count, contractOf, contract, read);
      OwnNru(count, contractOf, ts, window, read, reports, contract);
      AddedNru(reports, contract, ts, window, amount);
    }
  }

  /** Adding to one entry adds to the sum of all. */
  lemma AddedNru(reports: map<nat, Consumption>, contract: nat, ts: nat, window: nat, amount: nat)
    requires NruOf(reports)(contract) + amount < U64
    ensures var next := AddTo(reports, contract, ts, window, amount);
      SumOver(NruOf(next), next.Keys) == SumOver(NruOf(reports), reports.Keys) + amount
  {
    var next := AddTo(reports, contract, ts, window, amount);
    var others := reports.Keys - {contract};
    WrapSmall(NruOf(reports)(contract) + amount);
    assert NruOf(next)(contract) == NruOf(reports)(contract) + amount;
    SumAgrees(NruOf(reports), NruOf(next), others);
    SumPut(NruOf(next), others, contract);
    assert next.Keys == others + {contract};
    if contract in reports {
      SumTake(NruOf(reports), reports.Keys, contract);
    } else {
      assert others == reports.Keys;
    }
  }

  lemma {:induction false} ShareBelow<K>(count: K -> nat, contractOf: K -> Option<nat>, contract: nat, read: set<K>)
    ensures SumOver(ShareOf(count, contractOf, contract), read) <= SumOver(Share(count, contractOf), read)
    decreases |read|
  {
    if read != {} {
      var key :| key in read;
      SumTake(ShareOf(count, contractOf, contract), read, key);
      SumTake(Share(count, contractOf), read, key);
      ShareBelow(count, contractOf, contract, read - {key});
    }
  }

  lemma TotalNruMore(report: Report, c: Consumption)
    ensures TotalNru(report + [c]) == TotalNru(report) + c.nru
  {
    assert (report + [c])[..|report|] == report;
  }

  ghost predicate Collected<K>(count: K -> nat, contractOf: K -> Option<nat>, ts: nat, window: nat, read: set<K>,
                               reports: map<nat, Consumption>)
  {
    Entries(count, contractOf, ts, window, read, reports) && Conserved(count, contractOf, read, reports)
  }

  lemma CollectMore<K>(count: K -> nat, contractOf: K -> Option<nat>, ts: nat, window: nat, read: set<K>, key: K,
                       reports: map<nat, Consumption>)
    requires Collected(count, contractOf, ts, window, read, reports) && key !in read
    ensures Collected(count, contractOf, ts, window, read + {key},
              if contractOf(key).None? then reports else AddTo(reports, contractOf(key).value, ts, window, count(key)))
  {
    if contractOf(key).None? {
      ReadNothing(count, contractOf, ts, window, read, key, reports);
    } else {
      ReadEntries(count, contractOf, ts, window, read, key, reports);
      ReadConserved(count, contractOf, ts, window, read, key, reports);
    }
  }

  /** The loop over the counters, in any order of iteration. */
  method Collect(values: map<string, Reading>, parse: Parser, ts: nat, window: nat) returns (reports: map<nat,
                 Consumption>)
    ensures Entries(CountOf(values), ContractOf(parse), ts, window, values.Keys, reports)
    ensures Conserved(CountOf(values), ContractOf(parse), values.Keys, reports)
  {
    ghost var count, contractOf := CountOf(values), ContractOf(parse);
    reports := map[];
    var left := values.Keys;
    ghost var read: set<string> := {};
    while left != {}
      invariant left <= values.Keys && read == values.Keys - left
      invariant Collected(count, contractOf, ts, window, read, reports)
      decreases left
    {
      var key :| key in left;
      var contract := ContractOf(parse)(key);
      CollectMore(count, contractOf, ts, window, read, key, reports);
      if contract.Some? {
        reports := AddTo(reports, contract.value, ts, window, values[key].Floor);
      }
      TakeOne(values.Keys, left, key);
      left, read := left - {key}, read + {key};
    }
    assert read == values.Keys;
  }

  /** The sum of the counters of the keys that count for `c`. */
  ghost function Used(values: map<string, Reading>, parse: Parser, c: nat): nat
  {
    SumOver(ShareOf(CountOf(values), ContractOf(parse), c), values.Keys)
  }

  /** The sum of the counters of all keys that count for a contract. */
  ghost function UsedInAll(values: map<string, Reading>, parse: Parser): nat
  {
    SumOver(Share(CountOf(values), ContractOf(parse)), values.Keys)
  }

  /** `report` is about these counters: each contract at most once, with its own sum and the given
      timestamp and window; no zero entry; every contract that used something; and, unless the 64-bit
      total overflows, a total equal to the sum of the truncated counters over all keys that parse,
      the timestamp key aside. */
  ghost predicate IsReport(report: Report, values: map<string, Reading>, parse: Parser, ts: int, window: int)
  {
    && (forall i :: 0 <= i < |report| ==>
          && report[i].timestamp == ts && report[i].window == window
          && report[i].nru != 0 && report[i].nru == Wrap(Used(values, parse, report[i].contract)))
    && (forall i, j :: 0 <= i < j < |report| ==> report[i].contract != report[j].contract)
    && (forall c :: Wrap(Used(values, parse, c)) != 0 ==> InReport(report, c))
    && (UsedInAll(values, parse) < U64 ==> TotalNru(report) == UsedInAll(values, parse))
  }

  /** The truncated counter of a key that parses, for one contract or, if none is named, for any. The
      timestamp key has none. */
  ghost function Counter(values: map<string, Reading>, parse: Parser, contract: Option<nat>): string -> nat
  {
    key =>
      if key in values && key != ".last-reported-ts" && parse(key).Some? && (contract.Some? ==> parse(key) == contract)
      then values[key].Floor else 0
  }

  lemma UsedIsCounted(values: map<string, Reading>, parse: Parser, c: nat)
    ensures Used(values, parse, c) == SumOver(Counter(values, parse, Some(c)), values.Keys)
  {
    SumAgrees(ShareOf(CountOf(values), ContractOf(parse), c), Counter(values, parse, Some(c)), values.Keys);
  }

  lemma AllIsCounted(values: map<string, Reading>, parse: Parser)
    ensures UsedInAll(values, parse) == SumOver(Counter(values, parse, None), values.Keys)
  {
    SumAgrees(Share(CountOf(values), ContractOf(parse)), Counter(values, parse, None), values.Keys);
  }

  /** What a report says: for each contract the sum of its counters modulo 2^64, and in all, unless that
      overflows, the sum of all counters. */
  lemma ReportCounts(report: Report, values: map<string, Reading>, parse: Parser, ts: int, window: int)
    requires IsReport(report, values, parse, ts, window)
    ensures forall i :: 0 <= i < |report| ==>
      var sum := SumOver(Counter(values, parse, Some(report[i].contract)), values.Keys);
      report[i].nru == sum % 18446744073709551616
    ensures var all := SumOver(Counter(values, parse, None), values.Keys);
      all < 18446744073709551616 ==> TotalNru(report) == all
  {
    AllIsCounted(values, parse);
    forall c { UsedIsCounted(values, parse, c); }
  }

  /** NRU conservation in aggregation, whatever the order of iteration. */
  method Aggregate(values: map<string, Reading>, parse: Parser, ts: nat, window: nat) returns (report: Report)
    ensures IsReport(report, values, parse, ts, window)
  {
    var reports := Collect(values, parse, ts, window);
    EntriesAreUsed(values, parse, ts, window, reports);
    report := Nonzero(reports);
    NonzeroIsReport(values, parse, ts, window, reports, report);
  }

  /** The entry of each contract has what it used. */
  ghost predicate UsedEntries(values: map<string, Reading>, parse: Parser, ts: nat, window: nat, reports: map<nat,
                              Consumption>)
  {
    && (forall c :: c in reports ==> reports[c] == Consumption(c, ts, window, Wrap(Used(values, parse, c))))
    && (forall c :: c !in reports ==> Wrap(Used(values, parse, c)) == 0)
  }

  lemma EntriesAreUsed(values: map<string, Reading>, parse: Parser, ts: nat, window: nat, reports: map<nat,
                       Consumption>)
    requires Entries(CountOf(values), ContractOf(parse), ts, window, values.Keys, reports)
    ensures UsedEntries(values, parse, ts, window, reports)
  {
    WrapSmall(0);
    forall c ensures Entry(ts, window, Used(values, parse, c), reports, c) {}
    forall c | c in reports ensures reports[c] == Consumption(c, ts, window, Wrap(Used(values, parse, c))) {
      assert Entry(ts, window, Used(values, parse, c), reports, c);
    }
    forall c | c !in reports ensures Wrap(Used(values, parse, c)) == 0 {
      assert Entry(ts, window, Used(values, parse, c), reports, c);
    }
  }

  lemma NonzeroIsReport(values: map<string, Reading>, parse: Parser, ts: nat, window: nat, reports: map<nat,
                        Consumption>,
                        report: Report)
    requires UsedEntries(values, parse, ts, window, reports) && NonzeroOf(reports, reports.Keys, report)
    requires UsedInAll(values, parse) < U64 ==> TotalNru(report) == UsedInAll(values, parse)
    ensures IsReport(report, values, parse, ts, window)
  {
    forall i | 0 <= i < |report|
      ensures report[i].timestamp == ts && report[i].window == window
      ensures report[i].nru != 0 && report[i].nru == Wrap(Used(values, parse, report[i].contract))
    {
      assert report[i] == reports[report[i].contract];
    }
    forall c | Wrap(Used(values, parse, c)) != 0 ensures InReport(report, c) {
      assert c in reports && reports[c].nru != 0;
    }
  }

  /** `report` has the nonzero entries of the contracts in `seen`. */
  ghost predicate NonzeroOf(reports: map<nat, Consumption>, seen: set<nat>, report: Report)
  {
    && (forall i :: 0 <= i < |report| ==>
          && report[i].nru != 0 && report[i].contract in seen && report[i].contract in reports
          && report[i] == reports[report[i].contract])
    && (forall i, j :: 0 <= i < j < |report| ==> report[i].contract != report[j].contract)
    && (forall c :: c in seen && c in reports && reports[c].nru != 0 ==> InReport(report, c))
  }

  ghost predicate InReport(report: Report, c: nat)
  {
    exists i :: 0 <= i < |report| && report[i].contract == c
  }

  lemma NonzeroMore(reports: map<nat, Consumption>, seen: set<nat>, report: Report, c: nat)
    requires NonzeroOf(reports, seen, report) && c in reports && c !in seen && reports[c].contract == c
    ensures reports[c].nru != 0 ==> NonzeroOf(reports, seen + {c}, report + [reports[c]])
    ensures reports[c].nru == 0 ==> NonzeroOf(reports, seen + {c}, report)
  {
    if reports[c].nru != 0 {
      var more := report + [reports[c]];
      assert more[|report|].contract == c;
      forall d | d in seen + {c} && d in reports && reports[d].nru != 0 ensures InReport(more, d) {
        if d != c {
          assert InReport(report, d);
          var i :| 0 <= i < |report| && report[i].contract == d;
          assert more[i].contract == d;
        }
      }
    }
  }

  /** `report` has the nonzero entries of `seen` and their sum. */
  ghost predicate Summed(reports: map<nat, Consumption>, seen: set<nat>, report: Report)
  {
    NonzeroOf(reports, seen, report) && TotalNru(report) == SumOver(NruOf(reports), seen)
  }

  lemma SummedMore(reports: map<nat, Consumption>, seen: set<nat>, report: Report, c: nat)
    requires Summed(reports, seen, report) && c in reports && c !in seen && reports[c].contract == c
    ensures Summed(reports, seen + {c}, if reports[c].nru != 0 then report + [reports[c]] else report)
  {
    NonzeroMore(reports, seen, report, c);
    TotalNruMore(report, reports[c]);
    SumPut(NruOf(reports), seen, c);
  }

  /** The reports that are not zero, in any order. */
  method Nonzero(reports: map<nat, Consumption>) returns (report: Report)
    requires forall c :: c in reports ==> reports[c].contract == c
    ensures NonzeroOf(reports, reports.Keys, report)
    ensures TotalNru(report) == SumOver(NruOf(reports), reports.Keys)
  {
    report := [];
    var left := reports.Keys;
    ghost var seen: set<nat> := {};
    while left != {}
      invariant left <= reports.Keys && seen == reports.Keys - left
      invariant Summed(reports, seen, report)
      decreases left
    {
      var c :| c in left;
      SummedMore(reports, seen, report, c);
      if reports[c].nru != 0 {
        report := report + [reports[c]];
      }
      TakeOne(reports.Keys, left, c);
      left, seen := left - {c}, seen + {c};
    }
    assert seen == reports.Keys;
  }

  // ---------- windows ----------

  const EVERY: int := 3600
  const SECOND: int := 1_000_000_000

  /** A generated window: the start it was asked for, and the two numbers in the report. */
  datatype Window = Window(start: int, timestamp: int, length: int)

  /** Integer division of Go, which truncates toward zero. */
  function Truncated(a: int, b: int): int
    requires b > 0
  {
    if a >= 0 then a / b else -((-a) / b)
  }

  function UnixSeconds(now: int): int { now / SECOND }

  /** Timestamp and window of a report made at `now` nanoseconds for everything since `start`. */
  function WindowAt(start: int, now: int): Window
  {
    Window(start, UnixSeconds(now), Truncated(now - start * SECOND, SECOND))
  }

  /** How long to wait, in seconds, before the next report. */
  function Delay(last: int, u: int): nat
  {
    if last + EVERY - u < 0 then 0 else last + EVERY - u
  }

  datatype Stage = Top | Waiting(start: int, until: int) | Pushed(timestamp: int)

  /** `last` is durable, `now` is the clock in nanoseconds. `windows` are the windows whose report
      was handed over; `forgotten` has the number of windows at each moment when a report had been
      handed over and its time was not stored. */
  datatype Timer = Timer(now: int, last: Option<int>, stage: Stage, windows: seq<Window>, first: Option<int>,
                         forgotten: set<nat>)

  ghost predicate Tick(s: Timer, t: Timer)
  {
    exists now :: now >= s.now && t == s.(now := now)
  }

  /** Read the last report time, or record the present one as the first. */
  ghost predicate Open(s: Timer, t: Timer)
  {
    && s.stage == Top
    && var u := UnixSeconds(s.now);
    && var start := if s.last.Some? then s.last.value else u;
    && t == s.(last := Some(start), first := if s.last.Some? then s.first else Some(start),
               stage := Waiting(start, s.now + Delay(start, u) * SECOND))
  }

  /** The wait is over and the report is handed over. */
  ghost predicate HandOver(s: Timer, t: Timer)
  {
    && s.stage.Waiting? && s.now >= s.stage.until
    && var w := WindowAt(s.stage.start, s.now);
    && t == s.(windows := s.windows + [w], stage := Pushed(w.timestamp))
  }

  /** The report cannot be handed over: the loop ends and is started again later. */
  ghost predicate HandOverFails(s: Timer, t: Timer)
  {
    s.stage.Waiting? && s.now >= s.stage.until && t == s.(stage := Top)
  }

  ghost predicate Remember(s: Timer, t: Timer)
  {
    s.stage.Pushed? && t == s.(last := Some(s.stage.timestamp), stage := Top)
  }

  /** The process dies, or storing the time fails, which ends the loop until it is started again. */
  ghost predicate Die(s: Timer, t: Timer)
  {
    t == s.(stage := Top, forgotten := s.forgotten + if s.stage.Pushed? then {|s.windows|} else {})
  }

  /** A report was handed over and its time is not stored. */
  ghost predicate Forgets(s: Timer, t: Timer) { s.stage.Pushed? && Die(s, t) }

  ghost predicate TimerStep(s: Timer, t: Timer)
  {
    Tick(s, t) || Open(s, t) || HandOver(s, t) || HandOverFails(s, t) || Remember(s, t) || Die(s, t)
  }

  ghost predicate IsTimerRun(run: seq<Timer>)
  {
    && run != [] && run[0] == Timer(run[0].now, None, Top, [], None, {})
    && forall i :: 0 < i < |run| ==> TimerStep(run[i - 1], run[i])
  }

  /** The end of the last window, or the first recorded time. */
  function Frontier(s: Timer): int
    requires s.first.Some?
  {
    if s.windows == [] then s.first.value else s.windows[|s.windows| - 1].timestamp
  }

  /** A window lasts an hour or more and its length is exact. */
  predicate Sane(w: Window) { w.timestamp >= w.start + EVERY && w.length == w.timestamp - w.start }

  /** Each window starts where the one before ended, or, if the time of that one was forgotten,
      repeats its start. */
  ghost predicate Chained(first: int, windows: seq<Window>, forgotten: set<nat>)
  {
    && (windows != [] ==> windows[0].start == first)
    && forall i :: 0 < i < |windows| ==>
         windows[i].start == if i in forgotten then windows[i - 1].start else windows[i - 1].timestamp
  }

  ghost predicate Tiled(windows: seq<Window>)
  {
    forall i :: 0 < i < |windows| ==> windows[i].start == windows[i - 1].timestamp
  }

  ghost predicate TimerSound(s: Timer)
  {
    && (s.last.None? <==> s.first.None?)
    && (s.last.None? ==> s.windows == [] && s.stage == Top)
    && (forall i :: 0 <= i < |s.windows| ==> Sane(s.windows[i]))
    && (forall k :: k in s.forgotten ==> 0 < k <= |s.windows|)
    && (s.last.Some? ==>
          && Chained(s.first.value, s.windows, s.forgotten)
          && (s.stage.Pushed? ==>
                && s.windows != [] && |s.windows| !in s.forgotten && s.stage.timestamp == Frontier(s)
                && s.last.value == s.windows[|s.windows| - 1].start)
          && (s.stage.Waiting? ==> s.stage.start == s.last.value && s.stage.until >= (s.last.value + EVERY) * SECOND)
          && (!s.stage.Pushed? ==>
                s.last.value == if |s.windows| in s.forgotten then s.windows[|s.windows| - 1].start else Frontier(s)))
  }

  lemma WindowIsExact(start: int, now: int)
    requires now >= (start + EVERY) * SECOND
    ensures Sane(WindowAt(start, now))
  {}

  lemma DelayReaches(last: int, now: int)
    ensures now + Delay(last, UnixSeconds(now)) * SECOND >= (last + EVERY) * SECOND
  {}

  /** The wait ends at once if an hour has passed since the last report, and otherwise within the second
      in which it has. */
  lemma WaitIsExact(s: Timer, t: Timer)
    requires Open(s, t)
    ensures t.stage.Waiting?
    ensures t.stage.start == if s.last.Some? then s.last.value else s.now / 1_000_000_000
    ensures var due := (t.stage.start + 3600) * 1_000_000_000;
      && (s.now >= due ==> t.stage.until == s.now)
      && (s.now < due ==> due <= t.stage.until < due + 1_000_000_000)
      && (t.stage.until - s.now) % 1_000_000_000 == 0
  {
    var u := s.now / 1_000_000_000;
    var delay := Delay(t.stage.start, u);
    assert t.stage.until - s.now == delay * 1_000_000_000;
  }

  /** A report is stamped with the second it is made in, and its window is the whole seconds since the
      start. */
  lemma WindowIsWhole(s: Timer, t: Timer)
    requires TimerSound(s) && HandOver(s, t)
    ensures |t.windows| == |s.windows| + 1 && s.windows == t.windows[..|s.windows|]
    ensures var w := t.windows[|s.windows|];
      && w.start == s.stage.start && w.length == w.timestamp - w.start
      && w.timestamp * 1_000_000_000 <= s.now < (w.timestamp + 1) * 1_000_000_000
      && t.stage == Pushed(w.timestamp)
  {
    WindowIsExact(s.stage.start, s.now);
  }

  lemma HandOverSound(s: Timer, t: Timer)
    requires TimerSound(s) && HandOver(s, t)
    ensures TimerSound(t)
  {
    WindowIsExact(s.stage.start, s.now);
  }

  lemma TimerStepSound(s: Timer, t: Timer)
    requires TimerSound(s) && TimerStep(s, t)
    ensures TimerSound(t)
  {
    if HandOver(s, t) {
      HandOverSound(s, t);
    } else if Open(s, t) {
      DelayReaches(t.stage.start, s.now);
    }
  }

  lemma {:induction false} TimerRunSound(run: seq<Timer>)
    requires IsTimerRun(run)
    ensures TimerSound(run[|run| - 1])
  {
    if |run| > 1 {
      TimerRunSound(run[..|run| - 1]);
      TimerStepSound(run[|run| - 2], run[|run| - 1]);
    }
  }

  ghost predicate InWindow(w: Window, t: int) { w.start <= t < w.timestamp }

  lemma {:induction false} ChainCovers(first: int, windows: seq<Window>, forgotten: set<nat>, t: int) returns (k: nat)
    requires windows != [] && Chained(first, windows, forgotten)
    requires forall i :: 0 <= i < |windows| ==> Sane(windows[i])
    requires first <= t < windows[|windows| - 1].timestamp
    ensures k < |windows| && InWindow(windows[k], t)
  {
    var last := windows[|windows| - 1];
    if last.start <= t || |windows| == 1 {
      k := |windows| - 1;
    } else {
      k := ChainCovers(first, windows[..|windows| - 1], forgotten, t);
    }
  }

  /** Report windows cover time: over every run, with failed hand-overs, restarts and crashes, every
      window lasts at least an hour, its length is the distance between its ends, and every second
      from the first recorded time to the end of the last window lies in some window. */
  lemma NoSecondSkipped(run: seq<Timer>, t: int)
    requires IsTimerRun(run)
    ensures var s := run[|run| - 1];
      && (forall i :: 0 <= i < |s.windows| ==> Sane(s.windows[i]))
      && (s.first.Some? && s.first.value <= t < Frontier(s) ==>
            exists k :: 0 <= k < |s.windows| && InWindow(s.windows[k], t))
  {
    TimerRunSound(run);
    var s := run[|run| - 1];
    if s.first.Some? && s.first.value <= t < Frontier(s) {
      var k := ChainCovers(s.first.value, s.windows, s.forgotten, t);
    }
  }

  lemma StepForgets(s: Timer, t: Timer, k: nat)
    requires TimerStep(s, t)
    ensures k in t.forgotten <==> k in s.forgotten || (Forgets(s, t) && |t.windows| == k)
  {}

  lemma ForgotMore(run: seq<Timer>, t: Timer, k: nat)
    requires run != []
    ensures ForgotAt(run + [t], k) <==> ForgotAt(run, k) || (Forgets(run[|run| - 1], t) && |t.windows| == k)
  {
    var more := run + [t];
    if ForgotAt(run, k) {
      var i :| 0 < i < |run| && Forgets(run[i - 1], run[i]) && |run[i].windows| == k;
      assert Forgets(more[i - 1], more[i]);
    }
    if Forgets(run[|run| - 1], t) {
      assert Forgets(more[|run| - 1], more[|run|]);
    }
    if ForgotAt(more, k) {
      var i :| 0 < i < |more| && Forgets(more[i - 1], more[i]) && |more[i].windows| == k;
      if i < |run| { assert Forgets(run[i - 1], run[i]); }
    }
  }

  /** What is forgotten was forgotten in some step of the run. */
  lemma {:induction false} ForgottenInSteps(run: seq<Timer>, k: nat)
    requires IsTimerRun(run)
    ensures k in run[|run| - 1].forgotten <==> ForgotAt(run, k)
  {
    if |run| > 1 {
      var front, t := run[..|run| - 1], run[|run| - 1];
      ForgottenInSteps(front, k);
      StepForgets(front[|front| - 1], t, k);
      ForgotMore(front, t, k);
      assert run == front + [t];
    }
  }

  /** A step of the run forgot the time of window number `k`. */
  ghost predicate ForgotAt(run: seq<Timer>, k: nat)
  {
    exists i :: 0 < i < |run| && Forgets(run[i - 1], run[i]) && |run[i].windows| == k
  }

  /** A report was handed over, its time was not stored, and another report followed. */
  ghost predicate ForgetsAndGoesOn(run: seq<Timer>)
    requires run != []
  {
    exists i :: 0 < i < |run| && Forgets(run[i - 1], run[i]) && |run[i].windows| < |run[|run| - 1].windows|
  }

  /** Report windows tile time, exactly as long as no report whose time was not stored was followed by
      another. Window by window: each starts where the one before ended, that is, Timestamp minus
      Window of one is the Timestamp of the one before, exactly unless that one's time was forgotten;
      and the next report starts at the last end exactly unless the last one's was. */
  lemma WindowsTile(run: seq<Timer>)
    requires IsTimerRun(run)
    ensures var s := run[|run| - 1];
      && (Tiled(s.windows) <==> !ForgetsAndGoesOn(run))
      && (forall i :: 0 < i < |s.windows| ==>
            (s.windows[i].timestamp - s.windows[i].length == s.windows[i - 1].timestamp <==> !ForgotAt(run, i)))
      && (s.stage == Top && s.first.Some? ==> (s.last == Some(Frontier(s)) <==> !ForgotAt(run, |s.windows|)))
  {
    TimerRunSound(run);
    var s := run[|run| - 1];
    forall k: nat { ForgottenInSteps(run, k); }
    Gaps(s);
    GoesOn(run);
    if k: nat :| k < |s.windows| && ForgotAt(run, k) {
      assert k in s.forgotten && s.windows[k].start != s.windows[k - 1].timestamp;
    }
    if !Tiled(s.windows) {
      var i :| 0 < i < |s.windows| && s.windows[i].start != s.windows[i - 1].timestamp;
      assert ForgotAt(run, i);
    }
  }

  lemma Gaps(s: Timer)
    requires TimerSound(s)
    ensures forall i :: 0 < i < |s.windows| ==>
      (s.windows[i].start == s.windows[i - 1].timestamp <==> i !in s.forgotten)
    ensures forall i :: 0 < i < |s.windows| ==> s.windows[i].timestamp - s.windows[i].length == s.windows[i].start
    ensures s.stage == Top && s.first.Some? ==> (s.last == Some(Frontier(s)) <==> |s.windows| !in s.forgotten)
  {}

  lemma GoesOn(run: seq<Timer>)
    requires run != []
    ensures ForgetsAndGoesOn(run) <==> exists k: nat :: k < |run[|run| - 1].windows| && ForgotAt(run, k)
  {
    var count := |run[|run| - 1].windows|;
    if ForgetsAndGoesOn(run) {
      var i :| 0 < i < |run| && Forgets(run[i - 1], run[i]) && |run[i].windows| < count;
      assert ForgotAt(run, |run[i].windows|);
    }
    if k: nat :| k < count && ForgotAt(run, k) {
      var i :| 0 < i < |run| && Forgets(run[i - 1], run[i]) && |run[i].windows| == k;
    }
  }

  /** The run of a crash in between: read, wait, hand over, crash, read again, hand over again. */
  function TwiceCounted(): seq<Timer>
  {
    var t := EVERY * SECOND;
    var w := Window(0, EVERY, EVERY);
    [Timer(0, None, Top, [], None, {}),
     Timer(0, Some(0), Waiting(0, t), [], Some(0), {}),
     Timer(t, Some(0), Waiting(0, t), [], Some(0), {}),
     Timer(t, Some(0), Pushed(EVERY), [w], Some(0), {}),
     Timer(t, Some(0), Top, [w], Some(0), {1}),
     Timer(t, Some(0), Waiting(0, t), [w], Some(0), {1}),
     Timer(t, Some(0), Pushed(EVERY), [w, w], Some(0), {1})]
  }

  /** A crash in between makes two reports count the same seconds. */
  lemma CrashCountsTwice()
    ensures var run := TwiceCounted();
      && IsTimerRun(run)
      && run[6].forgotten == {1} && |run[6].windows| == 2 && run[6].windows[0] == run[6].windows[1]
  {
    var run := TwiceCounted();
    assert WindowAt(0, EVERY * SECOND) == Window(0, EVERY, EVERY);
    assert Open(run[0], run[1]);
    assert Tick(run[1], run[2]);
    assert HandOver(run[2], run[3]);
    assert Die(run[3], run[4]);
    assert Open(run[4], run[5]);
    assert run[5].windows + [Window(0, EVERY, EVERY)] == run[6].windows;
    assert HandOver(run[5], run[6]);
  }

  // ---------- the way out ----------

  /** One goroutine that empties the queue: it has peeked the report numbered `place`, or has also
      published it. */
  datatype Pusher = Away | Peeked(place: nat) | Sent(place: nat)

  /** `queue` is durable. Reports are numbered by their place in `enqueued`; `published` lists the
      numbers of the reports published. */
  datatype Outbox = Outbox(queue: seq<Report>, pushers: seq<Pusher>, enqueued: seq<Report>, removed: seq<Report>,
                           published: seq<nat>)

  /** An empty report is not queued. */
  ghost predicate Enqueues(s: Outbox, t: Outbox)
  {
    exists r: Report :: EnqueuesOne(s, t, r)
  }

  ghost predicate EnqueuesOne(s: Outbox, t: Outbox, r: Report)
  {
    t == if r == [] then s else s.(queue := s.queue + [r], enqueued := s.enqueued + [r])
  }

  ghost predicate Peek(s: Outbox, t: Outbox, p: nat)
  {
    && p < |s.pushers| && s.pushers[p] == Away && s.queue != []
    && t == s.(pushers := s.pushers[p := Peeked(|s.removed|)])
  }

  ghost predicate Publish(s: Outbox, t: Outbox, p: nat)
  {
    && p < |s.pushers| && s.pushers[p].Peeked?
    && t == s.(pushers := s.pushers[p := Sent(s.pushers[p].place)], published := s.published + [s.pushers[p].place])
  }

  /** Publishing or dequeueing fails. */
  ghost predicate Fails(s: Outbox, t: Outbox, p: nat)
  {
    p < |s.pushers| && t == s.(pushers := s.pushers[p := Away])
  }

  /** Dequeueing removes the head, whichever report that is by now. */
  ghost predicate Drop(s: Outbox, t: Outbox, p: nat)
  {
    && p < |s.pushers| && s.pushers[p].Sent? && s.queue != []
    && t == s.(pushers := s.pushers[p := Away], queue := s.queue[1..], removed := s.removed + [s.queue[0]])
  }

  ghost predicate PusherStep(s: Outbox, t: Outbox, p: nat)
  {
    Peek(s, t, p) || Publish(s, t, p) || Fails(s, t, p) || Drop(s, t, p)
  }

  /** The process dies: the queue keeps what it has. */
  ghost predicate Killed(s: Outbox, t: Outbox)
  {
    t == s.(pushers := Resting(|s.pushers|))
  }

  function Resting(n: nat): seq<Pusher> { seq(n, i requires 0 <= i < n => Away) }

  ghost predicate OutboxStep(s: Outbox, t: Outbox)
  {
    Enqueues(s, t) || Killed(s, t) || exists p: nat :: PusherStep(s, t, p)
  }

  /** A run with `n` pushers on one queue. */
  ghost predicate IsOutboxRun(n: nat, run: seq<Outbox>)
  {
    && run != [] && run[0] == Outbox([], Resting(n), [], [], [])
    && forall i :: 0 < i < |run| ==> OutboxStep(run[i - 1], run[i])
  }

  /** Every removed report was published. */
  ghost predicate NoneDropped(s: Outbox)
  {
    forall k: nat :: k < |s.removed| ==> k in s.published
  }

  ghost predicate Conserving(n: nat, s: Outbox)
  {
    s.enqueued == s.removed + s.queue && |s.pushers| == n
  }

  /** What one pusher keeps: it holds the head, and publications repeat one report or move on to the
      next. */
  ghost predicate InOrder(s: Outbox)
  {
    && |s.pushers| == 1
    && (s.pushers[0] != Away ==> s.queue != [] && s.pushers[0].place == |s.removed|)
    && Stutters(s.published)
    && (s.published == [] ==> s.removed == [])
    && (s.published != [] ==> var last := s.published[|s.published| - 1];
          last <= |s.removed| <= last + 1 && last < |s.enqueued|)
    && (s.pushers[0].Sent? ==> s.published != [] && s.published[|s.published| - 1] == |s.removed|)
  }

  function QueuedNru(reports: seq<Report>): nat
  {
    if reports == [] then 0 else QueuedNru(reports[..|reports| - 1]) + TotalNru(reports[|reports| - 1])
  }

  lemma {:induction false} QueuedNruAppend(a: seq<Report>, b: seq<Report>)
    ensures QueuedNru(a + b) == QueuedNru(a) + QueuedNru(b)
  {
    if b == [] {
      assert a + b == a;
    } else {
      QueuedNruAppend(a, b[..|b| - 1]);
      assert (a + b)[..|a + b| - 1] == a + b[..|b| - 1];
    }
  }

  lemma StepConserves(n: nat, s: Outbox, t: Outbox)
    requires Conserving(n, s) && OutboxStep(s, t)
    ensures Conserving(n, t)
  {
    if Enqueues(s, t) {
      var r: Report :| EnqueuesOne(s, t, r);
      assert s.removed + (s.queue + [r]) == s.removed + s.queue + [r];
    } else if !Killed(s, t) {
      var p: nat :| PusherStep(s, t, p);
      if Drop(s, t, p) {
        assert s.removed + [s.queue[0]] + s.queue[1..] == s.removed + s.queue;
      }
    }
  }

  lemma EnqueueInOrder(s: Outbox, t: Outbox, r: Report)
    requires InOrder(s) && EnqueuesOne(s, t, r)
    ensures InOrder(t)
  {}

  lemma PublishInOrder(s: Outbox, t: Outbox)
    requires Conserving(1, s) && InOrder(s) && Publish(s, t, 0)
    ensures InOrder(t)
  {}

  lemma PusherInOrder(s: Outbox, t: Outbox)
    requires InOrder(s) && (Peek(s, t, 0) || Fails(s, t, 0) || Drop(s, t, 0))
    ensures InOrder(t)
  {}

  lemma StepInOrder(s: Outbox, t: Outbox)
    requires Conserving(1, s) && InOrder(s) && OutboxStep(s, t)
    ensures InOrder(t)
  {
    if Enqueues(s, t) {
      var r: Report :| EnqueuesOne(s, t, r);
      EnqueueInOrder(s, t, r);
    } else if !Killed(s, t) {
      var p: nat :| PusherStep(s, t, p);
      if Publish(s, t, p) { PublishInOrder(s, t); } else { PusherInOrder(s, t); }
    }
  }

  lemma {:induction false} OutboxRunConserves(n: nat, run: seq<Outbox>)
    requires IsOutboxRun(n, run)
    ensures Conserving(n, run[|run| - 1])
    ensures n == 1 ==> InOrder(run[|run| - 1])
    ensures n == 0 ==> run[|run| - 1].removed == []
  {
    if |run| > 1 {
      var s, t := run[|run| - 2], run[|run| - 1];
      OutboxRunConserves(n, run[..|run| - 1]);
      StepConserves(n, s, t);
      if n == 1 { StepInOrder(s, t); }
    }
  }

  /** With one pusher, publications are in enqueue order, each repeats the current report or moves on
      to the next, every removed report was published and nothing behind the head was. */
  lemma OnePusherInOrder(run: seq<Outbox>)
    requires IsOutboxRun(1, run)
    ensures var s := run[|run| - 1];
      && NoneDropped(s) && Stutters(s.published)
      && (forall i :: 0 <= i < |s.published| ==> s.published[i] <= |s.removed| && s.published[i] < |s.enqueued|)
  {
    OutboxRunConserves(1, run);
    var s := run[|run| - 1];
    if s.published != [] {
      StutterCovers(s.published);
    }
  }

  /** With any number of pushers: what was enqueued is what was removed followed by what is queued, and
      so is its NRU. */
  lemma QueueConserves(n: nat, run: seq<Outbox>)
    requires IsOutboxRun(n, run)
    ensures var s := run[|run| - 1];
      && s.enqueued == s.removed + s.queue
      && QueuedNru(s.enqueued) == QueuedNru(s.removed) + QueuedNru(s.queue)
  {
    OutboxRunConserves(n, run);
    QueuedNruAppend(run[|run| - 1].removed, run[|run| - 1].queue);
  }

  /** Two pushers peek and publish the same report and then each removes a head. */
  function TwiceDropped(n: nat, a: Report, b: Report): seq<Outbox>
    requires n >= 2 && a != [] && b != []
  {
    var idle, both := Resting(n), [a, b];
    [Outbox([], idle, [], [], []),
     Outbox([a], idle, [a], [], []),
     Outbox(both, idle, both, [], []),
     Outbox(both, idle[0 := Peeked(0)], both, [], []),
     Outbox(both, idle[0 := Peeked(0)][1 := Peeked(0)], both, [], []),
     Outbox(both, idle[0 := Sent(0)][1 := Peeked(0)], both, [], [0]),
     Outbox(both, idle[0 := Sent(0)][1 := Sent(0)], both, [], [0, 0]),
     Outbox([b], idle[0 := Away][1 := Sent(0)], both, [a], [0, 0]),
     Outbox([], idle[0 := Away][1 := Away], both, [a, b], [0, 0])]
  }

  lemma TwoPushersDrop(n: nat, a: Report, b: Report)
    requires n >= 2 && a != [] && b != []
    ensures IsOutboxRun(n, TwiceDropped(n, a, b)) && !NoneDropped(TwiceDropped(n, a, b)[8])
  {
    var run := TwiceDropped(n, a, b);
    var idle := Resting(n);
    assert EnqueuesOne(run[0], run[1], a);
    assert EnqueuesOne(run[1], run[2], b);
    assert PusherStep(run[2], run[3], 0);
    assert PusherStep(run[3], run[4], 1);
    assert idle[0 := Peeked(0)][1 := Peeked(0)][0 := Sent(0)] == idle[0 := Sent(0)][1 := Peeked(0)];
    assert PusherStep(run[4], run[5], 0);
    assert PusherStep(run[5], run[6], 1);
    assert idle[0 := Sent(0)][1 := Sent(0)][0 := Away] == idle[0 := Away][1 := Sent(0)];
    assert [a, b][1..] == [b];
    assert PusherStep(run[6], run[7], 0);
    assert PusherStep(run[7], run[8], 1);
    assert 1 !in run[8].published;
  }

  /** No report is lost on the way out, over all runs of pushes, failed publishes, failed dequeues and
      crashes, exactly if no two pushers work on the queue. */
  lemma NoReportLost(n: nat)
    ensures (forall run :: IsOutboxRun(n, run) ==> NoneDropped(run[|run| - 1])) <==> n <= 1
  {
    if n <= 1 {
      forall run | IsOutboxRun(n, run) ensures NoneDropped(run[|run| - 1]) {
        if n == 1 { OnePusherInOrder(run); } else { OutboxRunConserves(n, run); }
      }
    } else {
      var r := [Consumption(1, 0, 0, 1)];
      TwoPushersDrop(n, r, r);
    }
  }

  // ---------- the reporter ----------

  lemma MoreTimer(run: seq<Timer>, t: Timer)
    requires IsTimerRun(run) && TimerStep(run[|run| - 1], t)
    ensures IsTimerRun(run + [t])
  {}

  function StartAt(last: Option<int>, u: int): int
  {
    if last.Some? then last.value else UnixSeconds(u)
  }

  /** From the top of the loop, read at `u`, to the end of the wait at `now`. */
  lemma Waits(run: seq<Timer>, u: int, now: int) returns (next: seq<Timer>)
    requires IsTimerRun(run) && run[|run| - 1].stage == Top && run[|run| - 1].now <= u
    requires now >= u + Delay(StartAt(run[|run| - 1].last, u), UnixSeconds(u)) * SECOND
    ensures IsTimerRun(next) && run <= next
    ensures var t, start := next[|next| - 1], StartAt(run[|run| - 1].last, u);
      && t.stage.Waiting? && t.stage.start == start && t.stage.until <= now == t.now
      && t.last == Some(start) && t.windows == run[|run| - 1].windows
  {
    var start := StartAt(run[|run| - 1].last, u);
    var t0 := run[|run| - 1].(now := u);
    MoreTimer(run, t0);
    var t1 := t0.(last := Some(start), first := if t0.last.Some? then t0.first else Some(start),
                  stage := Waiting(start, u + Delay(start, UnixSeconds(u)) * SECOND));
    assert Open(t0, t1);
    MoreTimer(run + [t0], t1);
    var t2 := t1.(now := now);
    MoreTimer(run + [t0] + [t1], t2);
    next := run + [t0] + [t1] + [t2];
  }

  /** The report is handed over, and its time recorded if that works. */
  lemma HandsOver(run: seq<Timer>, stores: bool) returns (next: seq<Timer>)
    requires IsTimerRun(run) && run[|run| - 1].stage.Waiting? && run[|run| - 1].now >= run[|run| - 1].stage.until
    ensures IsTimerRun(next) && run <= next
    ensures var s, t := run[|run| - 1], next[|next| - 1];
      var w := WindowAt(s.stage.start, s.now);
      && t.stage == Top && t.now == s.now && t.windows == s.windows + [w]
      && t.last == if stores then Some(w.timestamp) else s.last
  {
    var s := run[|run| - 1];
    var w := WindowAt(s.stage.start, s.now);
    var t := s.(windows := s.windows + [w], stage := Pushed(w.timestamp));
    MoreTimer(run, t);
    var t' := if stores then t.(last := Some(w.timestamp), stage := Top)
              else t.(stage := Top, forgotten := t.forgotten + {|t.windows|});
    assert if stores then Remember(t, t') else Die(t, t');
    MoreTimer(run + [t], t');
    next := run + [t] + [t'];
  }

  lemma MoreOutbox(n: nat, run: seq<Outbox>, t: Outbox)
    requires IsOutboxRun(n, run) && OutboxStep(run[|run| - 1], t)
    ensures IsOutboxRun(n, run + [t])
  {}

  /** Report `r` put on the queue, unless it is empty. */
  function Enqueued(queue: seq<Report>, r: Report): seq<Report>
  {
    if r == [] then queue else queue + [r]
  }

  lemma EnqueuedNru(queue: seq<Report>, r: Report)
    ensures QueuedNru(Enqueued(queue, r)) == QueuedNru(queue) + TotalNru(r)
  {
    assert (queue + [r])[..|queue|] == queue;
  }

  /** `after` is `before` with one report, unless it is empty, about these counters. */
  ghost predicate Gains(before: seq<Report>, after: seq<Report>, values: map<string, Reading>, parse: Parser, ts: int,
                        window: int)
  {
    && (exists r :: IsReport(r, values, parse, ts, window) && after == Enqueued(before, r))
    && (UsedInAll(values, parse) < U64 ==> QueuedNru(after) == QueuedNru(before) + UsedInAll(values, parse))
  }

  /** `queue` and `last` are kept on disk. The two histories are runs of the systems above, with one
      pusher, so the theorems about runs hold of every reporter. */
  class ConsumptionReporter {
    var queue: seq<Report>
    var last: Option<int>
    ghost var timers: seq<Timer>
    ghost var boxes: seq<Outbox>

    ghost predicate Valid()
      reads this
    {
      && IsTimerRun(timers) && Time().last == last && Time().stage == Top
      && BoxValid()
    }

    ghost predicate BoxValid()
      reads this
    {
      IsOutboxRun(1, boxes) && Box().queue == queue && Box().pushers == [Away]
    }

    ghost function Time(): Timer
      requires timers != []
      reads this
    {
      timers[|timers| - 1]
    }

    ghost function Box(): Outbox
      requires boxes != []
      reads this
    {
      boxes[|boxes| - 1]
    }

    constructor (now: int)
      ensures Valid() && queue == [] && last == None && Time().now == now
    {
      queue, last := [], None;
      timers, boxes := [Timer(now, None, Top, [], None, {})], [Outbox([], [Away], [], [], [])];
    }

    method Push(report: Report)
      requires BoxValid()
      modifies this`queue, this`boxes
      ensures BoxValid()
      ensures queue == Enqueued(old(queue), report)
      ensures Enqueues(old(Box()), Box())
    {
      ghost var box := Box();
      ghost var next := box;
      if report != [] {
        next := box.(queue := box.queue + [report], enqueued := box.enqueued + [report]);
      }
      if |report| != 0 {
        queue := queue + [report];
      }
      assert EnqueuesOne(box, next, report);
      MoreOutbox(1, boxes, next);
      boxes := boxes + [next];
    }

    /** `pushOne`: publish the head, and drop it only when that went well. `published` and `dropped`
        say whether the gateway and the disk succeed. */
    method PushOne(published: bool, dropped: bool) returns (ok: bool)
      requires Valid() && queue != []
      modifies this`queue, this`boxes
      ensures Valid()
      ensures ok == (published && dropped)
      ensures queue == if published && dropped then old(queue)[1..] else old(queue)
      ensures Box().published == old(Box()).published + if published then [|old(Box()).removed|] else []
      ensures Box().removed == old(Box()).removed + if published && dropped then [old(queue)[0]] else []
    {
      ghost var box := Box();
      ghost var peeked := box.(pushers := [Peeked(|box.removed|)]);
      assert PusherStep(box, peeked, 0);
      MoreOutbox(1, boxes, peeked);
      boxes := boxes + [peeked];
      if !published {
        GoesAway();
        return false;
      }
      ghost var sent := peeked.(pushers := [Sent(|box.removed|)], published := box.published + [|box.removed|]);
      assert PusherStep(peeked, sent, 0);
      MoreOutbox(1, boxes, sent);
      boxes := boxes + [sent];
      if !dropped {
        GoesAway();
        return false;
      }
      ghost var next := sent.(pushers := [Away], queue := sent.queue[1..], removed := sent.removed + [sent.queue[0]]);
      queue := queue[1..];
      assert PusherStep(sent, next, 0);
      MoreOutbox(1, boxes, next);
      boxes := boxes + [next];
      ok := true;
    }

    /** The pusher gives up for now. */
    ghost method GoesAway()
      requires IsOutboxRun(1, boxes) && |Box().pushers| == 1
      modifies this`boxes
      ensures IsOutboxRun(1, boxes) && Box() == old(Box()).(pushers := [Away])
    {
      var next := Box().(pushers := [Away]);
      assert PusherStep(Box(), next, 0);
      MoreOutbox(1, boxes, next);
      boxes := boxes + [next];
    }

    /** `report`: aggregate the counters since `since` and queue the result. */
    method Report(values: map<string, Reading>, parse: Parser, since: int, now: int)
      requires BoxValid() && now >= (since + EVERY) * SECOND && now >= 0
      modifies this`queue, this`boxes
      ensures BoxValid()
      ensures Gains(old(queue), queue, values, parse, UnixSeconds(now), UnixSeconds(now) - since)
    {
      WindowIsExact(since, now);
      var w := WindowAt(since, now);
      var report := Aggregate(values, parse, w.timestamp, w.length);
      EnqueuedNru(queue, report);
      Push(report);
    }

    /** One round of `Run`, read at `u` and reporting at `now`. When handing the report over does not
        work, nothing moves; when only storing its time does not, the report is queued and the next
        round starts where this one did. */
    method Round(u: int, now: int, values: map<string, Reading>, parse: Parser, pushes: bool,
                 stores: bool) returns (ok: bool)
      requires Valid() && Time().now <= u && now >= 0
      requires now >= u + Delay(StartAt(last, u), UnixSeconds(u)) * SECOND
      modifies this
      ensures Valid() && old(timers) <= timers && ok == (pushes && stores)
      ensures last == Some(if ok then UnixSeconds(now) else StartAt(old(last), u))
      ensures Time().windows == old(Time()).windows + if pushes then [WindowAt(StartAt(old(last), u), now)] else []
      ensures pushes ==>
        Gains(old(queue), queue, values, parse, UnixSeconds(now), UnixSeconds(now) - StartAt(old(last), u))
      ensures !pushes ==> queue == old(queue)
    {
      ghost var waited := Waits(timers, u, now);
      if last.None? {
        last := Some(UnixSeconds(u));
      }
      DelayReaches(last.value, u);
      if !pushes {
        ghost var top := waited[|waited| - 1].(stage := Top);
        MoreTimer(waited, top);
        timers := waited + [top];
        return false;
      }
      Report(values, parse, last.value, now);
      timers := HandsOver(waited, stores);
      if !stores {
        return false;
      }
      last := Some(UnixSeconds(now));
      ok := true;
    }
  }
}
