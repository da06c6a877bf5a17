/** Reporting used capacity (cmds/modules/provisiond/cap.go): the amounts, and the two processes that
    keep the reports current. */
module Capacity {
  import opened Workloads
  import opened Outcomes
  import opened Jobs
  import opened Replay
  import opened Runs
  import opened Sums

  /** Four 64-bit counters. */
  datatype Amount = Amount(hru: nat, sru: nat, cru: nat, mru: nat)

  datatype Counter = HRU | SRU | CRU | MRU

  const ZERO := Amount(0, 0, 0, 0)

  function Of(a: Amount, c: Counter): nat
  {
    match c case HRU => a.hru case SRU => a.sru case CRU => a.cru case MRU => a.mru
  }

  /** `Capacity.Add` on unsigned 64-bit counters. */
  function AddWrapped(a: Amount, b: Amount): Amount
  {
    Amount(Wrap(a.hru + b.hru), Wrap(a.sru + b.sru), Wrap(a.cru + b.cru), Wrap(a.mru + b.mru))
  }

  /** What one workload uses: nothing if computing it fails. */
  type Usage = Workload -> Option<Amount>

  /** What a workload contributes to a counter: nothing unless it is ok or paused. */
  function Contribution(usage: Usage, c: Counter, w: Workload): nat
  {
    if w.result.state.IsOkay() && usage(w).Some? then Of(usage(w).value, c) else 0
  }

  function Sum(usage: Usage, c: Counter, ws: seq<Workload>): nat
  {
    if ws == [] then 0 else Sum(usage, c, ws[..|ws| - 1]) + Contribution(usage, c, ws[|ws| - 1])
  }

  function Total(usage: Usage, ws: seq<Workload>): Amount
  {
    Amount(Wrap(Sum(usage, HRU, ws)), Wrap(Sum(usage, SRU, ws)), Wrap(Sum(usage, CRU, ws)), Wrap(Sum(usage, MRU, ws)))
  }

  lemma SumMore(usage: Usage, c: Counter, ws: seq<Workload>, w: Workload)
    ensures Sum(usage, c, ws + [w]) == Sum(usage, c, ws) + Contribution(usage, c, w)
  {
    assert (ws + [w])[..|ws|] == ws;
  }

  lemma {:induction false} SumSplit(usage: Usage, c: Counter, a: seq<Workload>, x: Workload, b: seq<Workload>)
    ensures Sum(usage, c, a + [x] + b) == Sum(usage, c, a + b) + Contribution(usage, c, x)
    decreases b
  {
    if b == [] {
      assert a + [x] + b == a + [x] && a + b == a;
      SumMore(usage, c, a, x);
    } else {
      var front, y := b[..|b| - 1], b[|b| - 1];
      SumSplit(usage, c, a, x, front);
      assert a + [x] + b == (a + [x] + front) + [y] && a + b == (a + front) + [y];
      SumMore(usage, c, a + [x] + front, y);
      SumMore(usage, c, a + front, y);
    }
  }

  lemma TakeElement(usage: Usage, c: Counter, b: seq<Workload>, x: Workload) returns (rest: seq<Workload>)
    requires x in b
    ensures multiset(rest) == multiset(b) - multiset{x}
    ensures Sum(usage, c, b) == Sum(usage, c, rest) + Contribution(usage, c, x)
  {
    var i :| 0 <= i < |b| && b[i] == x;
    rest := b[..i] + b[i + 1..];
    assert b == b[..i] + [x] + b[i + 1..];
    SumSplit(usage, c, b[..i], x, b[i + 1..]);
  }

  lemma NoElements(b: seq<Workload>)
    requires multiset(b) == multiset{}
    ensures b == []
  {
    assert |multiset(b)| == |b|;
  }

  /** The sum does not depend on the order in which workloads are listed. */
  lemma {:induction false} SumPermutes(usage: Usage, c: Counter, a: seq<Workload>, b: seq<Workload>)
    requires multiset(a) == multiset(b)
    ensures Sum(usage, c, a) == Sum(usage, c, b)
    decreases |a|
  {
    if a == [] {
      NoElements(b);
    } else {
      var x := a[0];
      assert x in multiset(b);
      var restA := TakeElement(usage, c, a, x);
      var restB := TakeElement(usage, c, b, x);
      assert |multiset(restA)| == |a| - 1;
      SumPermutes(usage, c, restA, restB);
    }
  }

  /** `amount` is the capacity used by the ok and paused workloads of a stored deployment. */
  ghost predicate Uses(usage: Usage, cells: Cells, amount: Amount)
  {
    exists ws :: Lists(ws, cells) && amount == Total(usage, ws)
  }

  lemma UsesIsUnique(usage: Usage, cells: Cells, a: Amount, b: Amount)
    requires Uses(usage, cells, a) && Uses(usage, cells, b)
    ensures a == b
  {
    var v :| Lists(v, cells) && a == Total(usage, v);
    var w :| Lists(w, cells) && b == Total(usage, w);
    forall x ensures multiset(v)[x] == multiset(w)[x] {
      ListsCount(v, cells, x);
      ListsCount(w, cells, x);
    }
    forall c { SumPermutes(usage, c, v, w); }
  }

  lemma {:induction false} NoOkaySum(usage: Usage, c: Counter, ws: seq<Workload>)
    requires forall i :: 0 <= i < |ws| ==> !ws[i].result.state.IsOkay()
    ensures Sum(usage, c, ws) == 0
  {
    if ws != [] { NoOkaySum(usage, c, ws[..|ws| - 1]); }
  }

  lemma NoOkayTotal(usage: Usage, ws: seq<Workload>)
    requires forall i :: 0 <= i < |ws| ==> !ws[i].result.state.IsOkay()
    ensures Total(usage, ws) == ZERO
  {
    forall c { NoOkaySum(usage, c, ws); }
  }

  lemma NothingUsed(usage: Usage, cells: Cells, amount: Amount)
    requires Uses(usage, cells, amount) && !HasOkay(cells)
    ensures amount == ZERO
  {
    var ws :| Lists(ws, cells) && amount == Total(usage, ws);
    NoOkayTotal(usage, ws);
  }

  lemma {:induction false} Listable(cells: Cells) returns (ws: seq<Workload>)
    requires KeyedByName(cells)
    ensures Lists(ws, cells)
    decreases |cells.Keys|
  {
    if cells.Keys == {} {
      ws := [];
    } else {
      var n :| n in cells;
      var rest := cells - {n};
      assert rest.Keys == cells.Keys - {n};
      var front := Listable(rest);
      ws := front + [cells[n]];
      forall m | m in cells ensures cells[m] in ws {
        if m != n { assert rest[m] in front; }
      }
    }
  }

  lemma TotalMore(usage: Usage, ws: seq<Workload>, w: Workload)
    ensures Total(usage, ws + [w]) ==
      if w.result.state.IsOkay() && usage(w).Some? then AddWrapped(Total(usage, ws), usage(w).value)
      else Total(usage, ws)
  {
    forall c ensures Wrap(Sum(usage, c, ws + [w])) == Wrap(Wrap(Sum(usage, c, ws)) + Contribution(usage, c, w)) {
      SumMore(usage, c, ws, w);
      WrapAdd(Sum(usage, c, ws), Contribution(usage, c, w));
    }
    forall c ensures Wrap(Wrap(Sum(usage, c, ws)) + 0) == Wrap(Sum(usage, c, ws)) {
      WrapAdd(Sum(usage, c, ws), 0);
    }
  }

  /** The total, workload by workload: each counter is added modulo 2^64, and only workloads that are ok
      or paused and whose amount computes are added. */
  lemma TotalByWorkload(usage: Usage, ws: seq<Workload>, w: Workload)
    ensures Total(usage, []) == Amount(0, 0, 0, 0)
    ensures var a, b, m := Total(usage, ws), usage(w), 18446744073709551616;
      Total(usage, ws + [w]) ==
      if w.result.state in {Ok, Paused} && b.Some? then
        Amount((a.hru + b.value.hru) % m, (a.sru + b.value.sru) % m, (a.cru + b.value.cru) % m,
               (a.mru + b.value.mru) % m)
      else a
  {
    TotalMore(usage, ws, w);
  }

  /** The reported contract id and amount of each deployment. */
  method Consumption(usage: Usage, deployments: seq<Deployment>) returns (caps: seq<(nat, Amount)>)
    ensures |caps| == |deployments|
    ensures forall i :: 0 <= i < |caps| ==>
      caps[i] == (deployments[i].id.contract, Total(usage, deployments[i].workloads))
  {
    caps := [];
    for i := 0 to |deployments|
      invariant |caps| == i
      invariant forall j :: 0 <= j < i ==>
        caps[j] == (deployments[j].id.contract, Total(usage, deployments[j].workloads))
    {
      var ws := deployments[i].workloads;
      var total := ZERO;
      for k := 0 to |ws|
        invariant total == Total(usage, ws[..k])
      {
        assert ws[..k + 1] == ws[..k] + [ws[k]];
        TotalMore(usage, ws[..k], ws[k]);
        if ws[k].result.state.IsOkay() {
          var cap := usage(ws[k]);
          if cap.Some? {
            total := AddWrapped(total, cap.value);
          }
        }
      }
      assert ws[..|ws|] == ws;
      caps := caps + [(deployments[i].id.contract, total)];
    }
  }

  const ATTEMPTS := 5

  /** The gateway is called again after each failure, five times in all. */
  method Send(answers: seq<bool>) returns (ok: bool, called: nat)
    requires |answers| >= ATTEMPTS
    ensures ok <==> exists i :: 0 <= i < 5 && answers[i]
    ensures 1 <= called <= 5 && (forall i :: 0 <= i < called - 1 ==> !answers[i])
    ensures if ok then answers[called - 1] else called == 5
  {
    called := 0;
    while called < ATTEMPTS
      invariant 0 <= called <= ATTEMPTS
      invariant forall i :: 0 <= i < called ==> !answers[i]
    {
      called := called + 1;
      if answers[called - 1] {
        return true, called;
      }
    }
    ok := false;
  }

  // ---------- engine and setter side by side ----------

  const CHANNEL := 215

  /** The engine: between jobs, inside a job, or blocked in the callback after one. */
  datatype Worker = Resting | Working(job: Job, start: Slot, done: nat) | Calling(id: DlId)

  /** The setter: waiting, about to load a deployment, or about to report what it loaded. */
  datatype Hand = Empty | Holding(id: DlId) | Loaded(id: DlId, amount: Amount)

  /** `store`, `queue` and what was `reported` survive a restart; `begun` records that the head job was
      started before. `seen` are the ids ever created. `excused` are those whose job failed validation,
      whose report could not be sent, or whose pending report was forgotten, until they are pending or
      loaded again. */
  datatype Pair = Pair(
    store: Store,
    queue: seq<Job>,
    begun: bool,
    worker: Worker,
    channel: seq<DlId>,
    hand: Hand,
    reported: map<DlId, Amount>,
    seen: set<DlId>,
    excused: set<DlId>)

  function LastReport(s: Pair, id: DlId): Amount { if id in s.reported then s.reported[id] else ZERO }

  ghost predicate Created(s: Pair, t: Pair)
  {
    exists id, cells :: id !in s.seen && AllInit(cells) && KeyedByName(cells)
      && t == s.(store := s.store[id := cells], seen := s.seen + {id})
  }

  ghost predicate Enqueued(s: Pair, t: Pair)
  {
    exists job: Job :: job.target.id in s.seen && t == s.(queue := s.queue + [job])
  }

  /** The head job was started and is still in the queue: it is at work, or was cut short, or its
      dequeue failed, and will be started again. */
  predicate HeadIs(s: Pair, id: DlId) { s.begun && s.queue != [] && s.queue[0].target.id == id }

  ghost predicate Began(s: Pair, t: Pair)
  {
    && s.worker == Resting && s.queue != []
    && t == s.(begun := true, worker := Worker.Working(s.queue[0], SlotOf(s.store, s.queue[0].target.id), 0))
  }

  ghost predicate Wrote(cfg: Config, s: Pair, t: Pair)
  {
    && s.worker.Working?
    && var e := JobEffect(cfg, s.worker.job, s.worker.start);
    && s.worker.done < |e.writes|
    && t == s.(store := PutSlot(s.store, s.worker.job.target.id, e.writes[s.worker.done]),
               worker := s.worker.(done := s.worker.done + 1))
  }

  /** After the job, which leaves the queue unless the disk fails: a refused one calls nobody, an
      uninstall calls back with the delete flag, which the setter ignores, and any other job blocks
      until the channel takes its id. */
  ghost predicate Ended(cfg: Config, s: Pair, t: Pair, fails: bool)
  {
    && s.worker.Working? && s.worker.done == |JobEffect(cfg, s.worker.job, s.worker.start).writes|
    && s.queue != []
    && var id := s.worker.job.target.id;
    && var u := if fails then s else s.(queue := s.queue[1..], begun := false);
    && t == if Refused(cfg, s.worker.job) then u.(worker := Resting, excused := s.excused + {id})
            else if s.worker.job.Deprovision? then u.(worker := Resting)
            else u.(worker := Calling(id))
  }

  ghost predicate Sent(s: Pair, t: Pair)
  {
    && s.worker.Calling? && |s.channel| < CHANNEL
    && t == s.(worker := Resting, channel := s.channel + [s.worker.id], excused := s.excused - {s.worker.id})
  }

  ghost predicate Received(s: Pair, t: Pair)
  {
    && s.hand == Empty && s.channel != []
    && t == s.(hand := Holding(s.channel[0]), channel := s.channel[1..])
  }

  /** Loading a deployment that is gone drops the id. A loaded amount is current. */
  ghost predicate Load(usage: Usage, s: Pair, t: Pair)
  {
    && s.hand.Holding?
    && if s.hand.id in s.store
       then t.hand.Loaded? && Uses(usage, s.store[s.hand.id], t.hand.amount)
            && t == s.(hand := Loaded(s.hand.id, t.hand.amount), excused := s.excused - {s.hand.id})
       else t == s.(hand := Empty)
  }

  ghost predicate Reported(s: Pair, t: Pair)
  {
    s.hand.Loaded? && t == s.(hand := Empty, reported := s.reported[s.hand.id := s.hand.amount])
  }

  ghost predicate GaveUp(s: Pair, t: Pair)
  {
    s.hand.Loaded? && t == s.(hand := Empty, excused := s.excused + {s.hand.id})
  }

  /** The daemon dies anywhere and comes back: what was in memory is gone, the head job will be started
      again, and the use of every deployment that `storage.Capacity` lists is reported, all together.
      Deployments without an ok or paused workload are not listed, so their last report is right only
      if it was zero. */
  ghost predicate Restarted(usage: Usage, s: Pair, t: Pair)
  {
    && t == s.(worker := Resting, channel := [], hand := Empty, reported := t.reported, excused := t.excused)
    && (forall id :: Listed(s, id) ==> id in t.reported && Uses(usage, s.store[id], t.reported[id]))
    && (forall id :: !Listed(s, id) ==>
          (id in t.reported <==> id in s.reported) && LastReport(t, id) == LastReport(s, id))
    && (forall id :: id in t.excused <==>
          id in s.store && !Listed(s, id) && !HeadIs(s, id) && LastReport(s, id) != ZERO)
  }

  ghost predicate Listed(s: Pair, id: DlId) { id in s.store && HasOkay(s.store[id]) }

  /** As above, when that report cannot be sent: what was pending is forgotten, unless the head job is
      about it. */
  ghost predicate RestartedSilently(s: Pair, t: Pair)
  {
    t == s.(worker := Resting, channel := [], hand := Empty,
            excused := s.excused + set id | id in s.store && Pending(s, id) && !HeadIs(s, id))
  }

  ghost predicate Pending(s: Pair, id: DlId)
  {
    id in s.channel || (s.hand != Empty && s.hand.id == id) || s.worker == Calling(id)
  }

  ghost predicate Step(cfg: Config, usage: Usage, s: Pair, t: Pair)
  {
    || Created(s, t) || Enqueued(s, t) || Began(s, t) || Wrote(cfg, s, t)
    || Ended(cfg, s, t, false) || Ended(cfg, s, t, true) || Sent(s, t)
    || Received(s, t) || Load(usage, s, t) || Reported(s, t) || GaveUp(s, t)
    || Restarted(usage, s, t) || RestartedSilently(s, t)
  }

  /** Any store all of whose reports are current. */
  ghost predicate First(usage: Usage, s: Pair)
  {
    && s == Pair(s.store, [], false, Resting, [], Empty, s.reported, s.seen, {})
    && s.store.Keys <= s.seen && s.reported.Keys <= s.seen
    && forall id :: id in s.store ==> Uses(usage, s.store[id], LastReport(s, id))
  }

  ghost predicate IsInterleaving(cfg: Config, usage: Usage, run: seq<Pair>)
  {
    && run != [] && First(usage, run[0])
    && forall i :: 0 < i < |run| ==> Step(cfg, usage, run[i - 1], run[i])
  }

  /** The engine has the deployment in hand, or will have it again, and will call back about it. */
  predicate WorkedOn(s: Pair, id: DlId) { HeadIs(s, id) || s.worker == Calling(id) }

  /** What is, or is about to become, the last report about `id`. */
  function Coming(s: Pair, id: DlId): Amount
  {
    if s.hand.Loaded? && s.hand.id == id then s.hand.amount else LastReport(s, id)
  }

  /** The contract is pending in the channel, in the setter's hands before it was loaded, being
      worked on by the engine, or its last report is its current use. */
  ghost predicate Covered(usage: Usage, s: Pair, id: DlId)
  {
    || id in s.channel || s.hand == Holding(id) || WorkedOn(s, id)
    || (id in s.store && Uses(usage, s.store[id], Coming(s, id)))
  }

  ghost predicate Sound(cfg: Config, usage: Usage, s: Pair)
  {
    Shaped(s) && Underway(cfg, s) && AllCovered(usage, s)
  }

  ghost predicate AllCovered(usage: Usage, s: Pair)
  {
    forall id :: id in s.store && id !in s.excused ==> Covered(usage, s, id)
  }

  ghost predicate Shaped(s: Pair)
  {
    && |s.channel| <= CHANNEL
    && s.store.Keys <= s.seen && s.reported.Keys <= s.seen
    && (forall id :: id in s.store ==> KeyedByName(s.store[id]))
    && (forall i :: 0 <= i < |s.channel| ==> s.channel[i] in s.seen)
    && (forall i :: 0 <= i < |s.queue| ==> s.queue[i].target.id in s.seen)
    && (s.hand != Empty ==> s.hand.id in s.seen)
    && (s.worker.Calling? ==> s.worker.id in s.seen)
  }

  /** A job at work is the head of the queue, and the store is where its writes have left it. */
  ghost predicate Underway(cfg: Config, s: Pair)
  {
    s.worker.Working? ==>
      var e := JobEffect(cfg, s.worker.job, s.worker.start);
      && s.begun && s.queue != [] && s.worker.job == s.queue[0]
      && KeyedSlot(s.worker.start)
      && s.worker.done <= |e.writes|
      && SlotOf(s.store, s.worker.job.target.id) == Point(s.worker.start, e, s.worker.done)
  }

  ghost predicate KeyedSlot(slot: Slot) { slot.Some? ==> KeyedByName(slot.value) }

  lemma {:induction false} StepsKeepKeyed(p: Provisioner, id: DlId, steps: seq<Step>, slot: Slot, k: nat)
    requires KeyedSlot(slot) && k <= |StepsEffect(p, id, steps, slot).writes|
    ensures KeyedSlot(Point(slot, StepsEffect(p, id, steps, slot), k))
  {
    if steps != [] {
      var e := StepEffect(p, id, steps[0], slot);
      var rest := StepsEffect(p, id, steps[1..], After(slot, e));
      StepsFirst(p, id, steps, slot);
      ThenPoints(slot, e, rest, k);
      StepKeepsKeyed(p, id, steps[0], slot);
      if k > |e.writes| { StepsKeepKeyed(p, id, steps[1..], After(slot, e), k - |e.writes|); }
    }
  }

  lemma StepKeepsKeyed(p: Provisioner, id: DlId, step: Step, slot: Slot)
    requires KeyedSlot(slot)
    ensures var e := StepEffect(p, id, step, slot);
      forall k: nat :: k <= |e.writes| ==> KeyedSlot(Point(slot, e, k))
  {}

  /** Every record a job writes is stored under its own name. */
  lemma JobKeepsKeyed(cfg: Config, job: Job, slot: Slot, k: nat)
    requires KeyedSlot(slot) && k <= |JobEffect(cfg, job, slot).writes|
    ensures KeyedSlot(Point(slot, JobEffect(cfg, job, slot), k))
  {
    if !Refused(cfg, job) {
      var e := StepsEffect(cfg.prov, job.target.id, StepsOf(cfg, job), slot);
      if k <= |e.writes| { StepsKeepKeyed(cfg.prov, job.target.id, StepsOf(cfg, job), slot, k); }
    }
  }

  lemma CreatedSound(cfg: Config, usage: Usage, s: Pair, t: Pair)
    requires Sound(cfg, usage, s) && Created(s, t)
    ensures Sound(cfg, usage, t)
  {
    var id, cells :| id !in s.seen && AllInit(cells) && KeyedByName(cells)
      && t == s.(store := s.store[id := cells], seen := s.seen + {id});
    CreatedUses(usage, s, t, id, cells);
    forall other | other in t.store && other !in t.excused && other != id ensures Covered(usage, t, other) {
      assert Covered(usage, s, other);
    }
  }

  /** A new deployment uses nothing, which is what was reported about it. */
  lemma CreatedUses(usage: Usage, s: Pair, t: Pair, id: DlId, cells: Cells)
    requires Shaped(s) && id !in s.seen && AllInit(cells) && KeyedByName(cells)
    requires t == s.(store := s.store[id := cells], seen := s.seen + {id})
    ensures Covered(usage, t, id)
  {
    var ws := Listable(cells);
    NoOkayTotal(usage, ws);
    assert Uses(usage, cells, ZERO);
  }

  lemma WroteSound(cfg: Config, usage: Usage, s: Pair, t: Pair)
    requires Sound(cfg, usage, s) && Wrote(cfg, s, t)
    ensures Sound(cfg, usage, t)
  {
    var id := s.worker.job.target.id;
    JobKeepsKeyed(cfg, s.worker.job, s.worker.start, s.worker.done + 1);
    forall other | other in t.store && other !in t.excused ensures Covered(usage, t, other) {
      if other != id { assert Covered(usage, s, other); }
    }
  }

  lemma EndedSound(cfg: Config, usage: Usage, s: Pair, t: Pair, fails: bool)
    requires Sound(cfg, usage, s) && Ended(cfg, s, t, fails)
    ensures Sound(cfg, usage, t)
  {
    var id := s.worker.job.target.id;
    EndedStore(cfg, s, t, fails);
    forall other | other in t.store && other !in t.excused ensures Covered(usage, t, other) {
      assert Covered(usage, s, other);
    }
  }

  /** A finished uninstall left nothing to report about. */
  lemma EndedStore(cfg: Config, s: Pair, t: Pair, fails: bool)
    requires Underway(cfg, s) && Ended(cfg, s, t, fails)
    ensures s.worker.job.Deprovision? ==> s.worker.job.target.id !in s.store
  {
    if s.worker.job.Deprovision? {
      DeprovisionLeavesNothing(cfg, s.worker.job, s.worker.start);
    }
  }

  lemma EngineSound(cfg: Config, usage: Usage, s: Pair, t: Pair)
    requires Sound(cfg, usage, s) && (Enqueued(s, t) || Began(s, t))
    ensures Sound(cfg, usage, t)
  {
    forall other | other in t.store && other !in t.excused ensures Covered(usage, t, other) {
      assert Covered(usage, s, other);
    }
  }

  lemma ChannelShaped(cfg: Config, s: Pair, t: Pair)
    requires Shaped(s) && Underway(cfg, s) && (Sent(s, t) || Received(s, t))
    ensures Shaped(t) && Underway(cfg, t)
  {}

  lemma ChannelCovers(usage: Usage, s: Pair, t: Pair)
    requires AllCovered(usage, s) && (Sent(s, t) || Received(s, t))
    ensures AllCovered(usage, t)
  {
    forall other | other in t.store && other !in t.excused ensures Covered(usage, t, other) {
      if other !in s.excused { assert Covered(usage, s, other); }
    }
  }

  lemma HandShaped(cfg: Config, usage: Usage, s: Pair, t: Pair)
    requires Shaped(s) && Underway(cfg, s) && (Load(usage, s, t) || Reported(s, t) || GaveUp(s, t))
    ensures Shaped(t) && Underway(cfg, t)
  {}

  lemma HandCovers(usage: Usage, s: Pair, t: Pair)
    requires AllCovered(usage, s) && (Load(usage, s, t) || Reported(s, t) || GaveUp(s, t))
    ensures AllCovered(usage, t)
  {
    forall other | other in t.store && other !in t.excused ensures Covered(usage, t, other) {
      if other !in s.excused { assert Covered(usage, s, other); }
    }
  }

  lemma RestartSound(cfg: Config, usage: Usage, s: Pair, t: Pair)
    requires Sound(cfg, usage, s) && (Restarted(usage, s, t) || RestartedSilently(s, t))
    ensures Sound(cfg, usage, t)
  {
    if Restarted(usage, s, t) {
      forall id | id in t.store && id !in t.excused ensures Covered(usage, t, id) {
        if !HasOkay(s.store[id]) && !HeadIs(s, id) {
          var ws := Listable(s.store[id]);
          NoOkayTotal(usage, ws);
          assert LastReport(t, id) == ZERO;
        }
      }
    } else {
      forall id | id in t.store && id !in t.excused ensures Covered(usage, t, id) {
        assert Covered(usage, s, id);
      }
    }
  }

  lemma FirstSound(cfg: Config, usage: Usage, s: Pair)
    requires First(usage, s)
    ensures Sound(cfg, usage, s)
  {}

  lemma {:induction false} RunSound(cfg: Config, usage: Usage, run: seq<Pair>)
    requires IsInterleaving(cfg, usage, run)
    ensures Sound(cfg, usage, run[|run| - 1])
  {
    if |run| > 1 {
      var s, t := run[|run| - 2], run[|run| - 1];
      RunSound(cfg, usage, run[..|run| - 1]);
      if Restarted(usage, s, t) || RestartedSilently(s, t) { RestartSound(cfg, usage, s, t); }
      else if Created(s, t) { CreatedSound(cfg, usage, s, t); }
      else if Wrote(cfg, s, t) { WroteSound(cfg, usage, s, t); }
      else if Ended(cfg, s, t, false) { EndedSound(cfg, usage, s, t, false); }
      else if Ended(cfg, s, t, true) { EndedSound(cfg, usage, s, t, true); }
      else if Enqueued(s, t) || Began(s, t) { EngineSound(cfg, usage, s, t); }
      else if Sent(s, t) || Received(s, t) { ChannelShaped(cfg, s, t); ChannelCovers(usage, s, t); }
      else { HandShaped(cfg, usage, s, t); HandCovers(usage, s, t); }
    } else {
      FirstSound(cfg, usage, run[0]);
    }
  }

  /** Reported capacity never silently goes stale: in every interleaving of engine and setter, with
      restarts of the daemon anywhere, every stored deployment that is not excused is pending, in hand,
      being worked on (also again, after a restart cut its job short), or reported with its current
      use; and the channel never holds more than 215 ids. */
  lemma NeverSilentlyStale(cfg: Config, usage: Usage, run: seq<Pair>)
    requires IsInterleaving(cfg, usage, run)
    ensures var s := run[|run| - 1];
      && |s.channel| <= 215
      && (forall id :: id in s.store && id !in s.excused ==> Covered(usage, s, id))
      && (Quiet(s) ==> forall id :: id in s.store && id !in s.excused ==> Uses(usage, s.store[id], LastReport(s, id)))
  {
    RunSound(cfg, usage, run);
    var s := run[|run| - 1];
    if Quiet(s) {
      forall id | id in s.store && id !in s.excused ensures Uses(usage, s.store[id], LastReport(s, id)) {
        assert Covered(usage, s, id);
      }
    }
  }

  /** Nothing is going on, and no started job waits to be started again. */
  predicate Quiet(s: Pair) { s.worker == Resting && s.channel == [] && s.hand == Empty && !s.begun }

  /** Without the excuses the promise fails. A report of the current use that cannot be sent leaves
      the last one right exactly if it said the same. */
  lemma FailedSendGoesStale(usage: Usage, s: Pair, t: Pair)
    requires GaveUp(s, t) && s.hand.id in s.store && Uses(usage, s.store[s.hand.id], s.hand.amount)
    ensures Uses(usage, t.store[s.hand.id], LastReport(t, s.hand.id)) <==> LastReport(s, s.hand.id) == s.hand.amount
  {
    if Uses(usage, s.store[s.hand.id], LastReport(t, s.hand.id)) {
      UsesIsUnique(usage, s.store[s.hand.id], s.hand.amount, LastReport(t, s.hand.id));
    }
  }

  /** After a restart whose reports were sent, the last report of a deployment is right exactly if the
      deployment was listed or its last report was zero. */
  lemma RestartMissesUnlisted(usage: Usage, s: Pair, t: Pair, id: DlId)
    requires Restarted(usage, s, t) && id in s.store && KeyedByName(s.store[id])
    ensures Uses(usage, t.store[id], LastReport(t, id)) <==> Listed(s, id) || LastReport(s, id) == ZERO
  {
    if !Listed(s, id) {
      var ws := Listable(s.store[id]);
      NoOkayTotal(usage, ws);
      if Uses(usage, t.store[id], LastReport(t, id)) { NothingUsed(usage, t.store[id], LastReport(t, id)); }
    }
  }

  /** After a restart whose reports were not sent, it is right exactly if it was right before: nothing
      that was pending comes. */
  lemma SilentRestartReportsNothing(usage: Usage, s: Pair, t: Pair, id: DlId, use: Amount)
    requires RestartedSilently(s, t) && id in s.store && Uses(usage, s.store[id], use)
    ensures Uses(usage, t.store[id], LastReport(t, id)) <==> LastReport(s, id) == use
  {
    if Uses(usage, s.store[id], LastReport(s, id)) { UsesIsUnique(usage, s.store[id], use, LastReport(s, id)); }
  }

  /** A job that fails validation puts every workload in error and tells nobody. The last report
      stays right exactly if it was zero. */
  lemma RefusalGoesStale(cfg: Config, usage: Usage, job: Job, cells: Cells, amount: Amount)
    requires Refused(cfg, job) && KeyedByName(cells)
    ensures var after := Final(cfg, job, Some(cells));
      after.Some? && (Uses(usage, after.value, amount) <==> amount == ZERO)
  {
    var marked := MarkError(Some(cells), cfg.check(job).value).value;
    assert Final(cfg, job, Some(cells)) == Some(marked);
    assert KeyedByName(marked) && !HasOkay(marked);
    var ws := Listable(marked);
    assert Uses(usage, marked, Total(usage, ws));
    NothingUsed(usage, marked, Total(usage, ws));
    if Uses(usage, marked, amount) { NothingUsed(usage, marked, amount); }
  }
}
