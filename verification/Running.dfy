/** The loop of the engine is a run of the transition system, so the theorems about runs hold of the
    stored deployments. */
module Running {
  import opened Workloads
  import opened Plans
  import opened Jobs
  import opened Replay
  import opened Runs
  import opened Storage
  import opened Boot
  import opened Engine

  ghost predicate Between(s: System) { s.phase == Idle && s.queue != [] }

  /** The system after one round: the head job carried out, and dropped unless the disk fails. */
  ghost function Rounded(cfg: Config, s: System, fails: bool): System
    requires s.queue != []
  {
    var store := PutSlot(s.store, Head(s), Final(cfg, s.queue[0], SlotOf(s.store, Head(s))));
    var begun := s.(store := store, phase := Idle, begun := true, starts := s.starts + [|s.finished|]);
    if fails then begun
    else begun.(queue := s.queue[1..], begun := false, finished := s.finished + [s.queue[0]],
                events := s.events + [Completed(s.queue[0])])
  }

  lemma RunMore(cfg: Config, run: seq<System>, t: System)
    requires IsRun(cfg, run) && Next(cfg, run[|run| - 1], t)
    ensures IsRun(cfg, run + [t])
  {}

  lemma PutPut(store: Store, id: DlId, a: Slot, b: Slot)
    ensures PutSlot(PutSlot(store, id, a), id, b) == PutSlot(store, id, b)
  {}

  lemma PutSame(store: Store, id: DlId)
    ensures PutSlot(store, id, SlotOf(store, id)) == store
  {}

  /** The system in which the head job, found as `start`, has finished `k` writes. */
  ghost function AfterWrites(s: System, start: Slot, e: Effect<Slot>, k: nat): System
    requires s.queue != [] && k <= |e.writes|
  {
    s.(store := PutSlot(s.store, Head(s), Point(start, e, k)), phase := Working(start, k))
  }

  lemma WriteIsStep(cfg: Config, s: System, start: Slot, e: Effect<Slot>, k: nat)
    requires s.queue != [] && e == JobEffect(cfg, s.queue[0], start) && k < |e.writes|
    ensures Write(cfg, AfterWrites(s, start, e, k), AfterWrites(s, start, e, k + 1))
  {
    var a, b := AfterWrites(s, start, e, k), AfterWrites(s, start, e, k + 1);
    PutPut(s.store, Head(s), Point(start, e, k), e.writes[k]);
    assert a.queue == s.queue && a.phase == Working(start, k) && e == JobEffect(cfg, a.queue[0], a.phase.start);
    assert b.store == PutSlot(a.store, Head(a), e.writes[k]);
    assert b == a.(store := b.store, phase := Working(start, k + 1));
  }

  /** The first `k` writes of the head job, one step of the system each. */
  lemma {:induction false} WritesAreSteps(cfg: Config, run: seq<System>, start: Slot, e: Effect<Slot>, k: nat)
    returns (next: seq<System>)
    requires IsRun(cfg, run) && run[|run| - 1].queue != []
    requires e == JobEffect(cfg, run[|run| - 1].queue[0], start) && k <= |e.writes|
    requires run[|run| - 1] == AfterWrites(run[|run| - 1], start, e, 0)
    ensures IsRun(cfg, next) && run <= next && next[|next| - 1] == AfterWrites(run[|run| - 1], start, e, k)
  {
    next := run;
    if k > 0 {
      var s := run[|run| - 1];
      next := WritesAreSteps(cfg, run, start, e, k - 1);
      WriteIsStep(cfg, s, start, e, k - 1);
      RunMore(cfg, next, AfterWrites(s, start, e, k));
      next := next + [AfterWrites(s, start, e, k)];
    }
  }

  /** One round of the loop, step by step. */
  lemma RoundIsSteps(cfg: Config, run: seq<System>, fails: bool) returns (next: seq<System>)
    requires IsRun(cfg, run) && Between(run[|run| - 1])
    ensures IsRun(cfg, next) && run <= next
    ensures next[|next| - 1] == Rounded(cfg, run[|run| - 1], fails)
  {
    var s := run[|run| - 1];
    var start := SlotOf(s.store, Head(s));
    var t := s.(phase := Working(start, 0), begun := true, starts := s.starts + [|s.finished|]);
    assert Begin(s, t);
    RunMore(cfg, run, t);
    var e := JobEffect(cfg, s.queue[0], start);
    PutSame(s.store, Head(s));
    next := WritesAreSteps(cfg, run + [t], start, e, |e.writes|);
    var u, v := next[|next| - 1], Rounded(cfg, s, fails);
    assert AllWritten(cfg, u);
    if fails {
      assert DequeueFails(cfg, u, v);
    } else {
      assert Dequeue(cfg, u, v);
    }
    RunMore(cfg, next, v);
    next := next + [v];
  }

  lemma JobOnNothing(cfg: Config, job: Job)
    ensures Final(cfg, job, None) == None
  {
    StepsOnNothing(cfg.prov, job.target.id, StepsOf(cfg, job));
  }

  /** What a job does to the machine is what it does to the store of workloads. */
  lemma PerformIsPut(cfg: Config, m: Machine, job: Job)
    ensures var id := job.target.id;
      Cellular(Perform(m, id, JobEffect(cfg, job, SlotIn(m.records, id))).records)
      == PutSlot(Cellular(m.records), id, Final(cfg, job, SlotOf(Cellular(m.records), id)))
  {
    JobOnNothing(cfg, job);
  }

  /** The durable state of the engine, seen as a state of the system between two jobs. */
  ghost predicate Mirrors(engine: NativeEngine, s: System)
    reads engine.storage, engine.queue
  {
    s.phase == Idle && s.queue == engine.queue.jobs && s.store == Cellular(engine.storage.records)
  }

  /** How many of the first `i` rounds drop their job. */
  function Drops(fails: seq<bool>, i: nat): nat
    requires i <= |fails|
  {
    if i == 0 then 0 else Drops(fails, i - 1) + if fails[i - 1] then 0 else 1
  }

  /** `jobs` is what the first `i` rounds leave of `was`. */
  ghost predicate Left(was: seq<Job>, fails: seq<bool>, i: nat, jobs: seq<Job>)
  {
    i <= |fails| && Drops(fails, i) <= |was| && jobs == was[Drops(fails, i)..]
  }

  lemma LeftMore(was: seq<Job>, fails: seq<bool>, i: nat, jobs: seq<Job>)
    requires i < |fails| && Left(was, fails, i, jobs) && jobs != []
    ensures Left(was, fails, i + 1, if fails[i] then jobs else jobs[1..])
  {}

  /** `next` continues `run` up to the present state of the engine. */
  ghost predicate Tracks(engine: NativeEngine, run: seq<System>, next: seq<System>)
    reads engine, engine.storage, engine.queue
  {
    run != [] && run <= next && IsRun(engine.Cfg(), next) && Mirrors(engine, next[|next| - 1])
  }

  /** The same, and nothing was enqueued. */
  ghost predicate Works(engine: NativeEngine, run: seq<System>, next: seq<System>)
    reads engine, engine.storage, engine.queue
  {
    Tracks(engine, run, next) && next[|next| - 1].enqueued == run[|run| - 1].enqueued
  }

  method RunRound(engine: NativeEngine, fails: bool, ghost run: seq<System>,
                  ghost now: seq<System>) returns (ghost next: seq<System>)
    requires engine.storage.Valid() && Works(engine, run, now) && engine.queue.jobs != []
    modifies engine.storage, engine.queue, engine`calls
    ensures engine.storage.Valid() && engine.Cfg() == old(engine.Cfg()) && Works(engine, run, next) && now <= next
    ensures DurableOf(engine) == Worked(engine.Cfg(), old(DurableOf(engine)), fails)
  {
    ghost var cfg, m, job := engine.Cfg(), engine.State(), engine.queue.jobs[0];
    next := RoundIsSteps(cfg, now, fails);
    PerformIsPut(cfg, m, job);
    var notified := engine.RunOnce(fails);
  }

  /** The round numbered `i`. */
  method RunNext(engine: NativeEngine, fails: seq<bool>, i: nat, ghost was: seq<Job>, ghost run: seq<System>,
                 ghost now: seq<System>)
    returns (ghost next: seq<System>)
    requires engine.storage.Valid() && Works(engine, run, now) && engine.queue.jobs != []
    requires i < |fails| && Left(was, fails, i, engine.queue.jobs)
    modifies engine.storage, engine.queue, engine`calls
    ensures engine.storage.Valid() && engine.Cfg() == old(engine.Cfg()) && Works(engine, run, next)
    ensures Left(was, fails, i + 1, engine.queue.jobs)
  {
    LeftMore(was, fails, i, engine.queue.jobs);
    next := RunRound(engine, fails[i], run, now);
  }

  /** `Run`, for as many rounds as there are entries in `fails` or until the queue is empty; each
      entry says whether the disk fails to drop the head in that round. The loop is a run of the
      system. So once the queue is empty, every job ever enqueued has taken effect exactly once, in
      order, on the stored workloads. */
  method Run(engine: NativeEngine, fails: seq<bool>, ghost run: seq<System>) returns (i: nat, ghost next: seq<System>)
    requires engine.storage.Valid() && NoDuplicates(engine.order) && Tracks(engine, run, run)
    modifies engine.storage, engine.queue, engine`calls
    ensures engine.storage.Valid() && engine.Cfg() == old(engine.Cfg()) && Works(engine, run, next)
    ensures i <= |fails| && (i == |fails| || engine.queue.jobs == [])
    ensures Left(old(engine.queue.jobs), fails, i, engine.queue.jobs)
    ensures engine.queue.jobs == [] ==> Settled(engine.Cfg(), run, next)
  {
    ghost var cfg, was := engine.Cfg(), engine.queue.jobs;
    next := run;
    i := 0;
    while i < |fails| && |engine.queue.jobs| != 0
      invariant engine.storage.Valid() && engine.Cfg() == cfg && Works(engine, run, next)
      invariant Left(was, fails, i, engine.queue.jobs)
    {
      next := RunNext(engine, fails, i, was, run, next);
      i := i + 1;
    }
    ExactlyOnce(cfg, next);
  }

  /** Every job ever enqueued is finished, and the store is what creations and jobs, each applied
      exactly once, in order, made of the store the run started with. */
  ghost predicate Settled(cfg: Config, run: seq<System>, next: seq<System>)
    requires run != [] && next != []
  {
    && next[|next| - 1].finished == next[|next| - 1].enqueued
    && next[|next| - 1].store == Ledger(cfg, run[0].store, next[|next| - 1].events)
  }

  // ---------- requests ----------

  ghost function WithJob(s: System, job: Job): System
  {
    s.(queue := s.queue + [job], enqueued := s.enqueued + [job])
  }

  lemma JobIsStep(cfg: Config, run: seq<System>, job: Job)
    requires IsRun(cfg, run) && WellFormed(cfg, job)
    ensures IsRun(cfg, run + [WithJob(run[|run| - 1], job)])
  {
    assert Enqueue(cfg, run[|run| - 1], WithJob(run[|run| - 1], job));
    RunMore(cfg, run, WithJob(run[|run| - 1], job));
  }

  /** Several jobs, one step each. */
  lemma {:induction false} JobsAreSteps(cfg: Config, run: seq<System>, jobs: seq<Job>) returns (next: seq<System>)
    requires IsRun(cfg, run) && forall i :: 0 <= i < |jobs| ==> WellFormed(cfg, jobs[i])
    ensures IsRun(cfg, next) && run <= next
    ensures var s := run[|run| - 1];
      next[|next| - 1] == s.(queue := s.queue + jobs, enqueued := s.enqueued + jobs)
  {
    if jobs == [] {
      next := run;
    } else {
      var front, job := jobs[..|jobs| - 1], jobs[|jobs| - 1];
      next := JobsAreSteps(cfg, run, front);
      JobIsStep(cfg, next, job);
      next := next + [WithJob(next[|next| - 1], job)];
      assert jobs == front + [job];
    }
  }

  /** A request to the engine, a start after a reboot, or a round of the loop. */
  datatype Ask =
    | Submit(deployment: Deployment)
    | Hold(id: DlId)
    | Release(id: DlId)
    | Cancel(id: DlId, reason: string)
    | Amend(deployment: Deployment)
    | Start
    | Work(fails: bool)

  /** `Deployment.Upgrade` yields at most one operation per name. */
  ghost predicate UpgradesOnce(engine: NativeEngine)
  {
    forall src, d :: engine.upgrade(src, d).Some? ==> DistinctBy(OpName(), engine.upgrade(src, d).value)
  }

  /** A submitted deployment has distinct names, as validation before the call demands, and the head
      job is not in the middle of a deployment with its id. */
  ghost predicate Askable(ask: Ask, s: System)
  {
    ask.Submit? ==>
      DistinctNames(ask.deployment.workloads) && (s.begun && s.queue != [] ==> Head(s) != ask.deployment.id)
  }

  /** The durable state of the engine. */
  datatype Durable = Durable(records: Records, jobs: seq<Job>)

  ghost function DurableOf(engine: NativeEngine): Durable
    reads engine.storage, engine.queue
  {
    Durable(engine.storage.records, engine.queue.jobs)
  }

  /** `job` is what a request queues for the stored deployment `id`. */
  ghost predicate QueuesFor(ask: Ask, records: Records, job: Job)
  {
    match ask
    case Hold(id) => job.Pause? && IsCopy(records, id, job.target)
    case Release(id) => job.Resume? && IsCopy(records, id, job.target)
    case Cancel(id, reason) => job.Deprovision? && job.reason == reason && IsCopy(records, id, job.target)
    case _ => false
  }

  /** What was asked is done: from the durable state `s` to `t`. A request about a deployment that is
      not stored, an update that cannot be done, and a round with an empty queue change nothing. */
  ghost predicate Served(cfg: Config, active: Cells -> bool, ask: Ask, s: Durable, t: Durable)
  {
    match ask
    case Submit(d) =>
      t == if d.header.version == 0 && d.id !in s.records
           then Durable(s.records[d.id := Storage.Record(d.header, Initial(d.workloads))], s.jobs + [Job.Provision(d)])
           else s
    case Amend(d) =>
      if d.id !in s.records then t == s
      else exists src :: IsCopy(s.records, d.id, src) && t == Amended(cfg, s, src, d)
    case Start => t.records == s.records && exists jobs ::
      t.jobs == s.jobs + jobs && Booted(active, Cellular(s.records), jobs)
    case Work(fails) => t == Worked(cfg, s, fails)
    case _ =>
      if ask.id !in s.records then t == s
      else t.records == s.records && exists job :: QueuesFor(ask, s.records, job) && t.jobs == s.jobs + [job]
  }

  ghost function Amended(cfg: Config, s: Durable, src: Deployment, d: Deployment): Durable
    requires d.id in s.records
  {
    if Verdict(cfg, src, d) != Accepted then s
    else Durable(s.records[d.id := Storage.Record(d.header, s.records[d.id].cells)], s.jobs + [Job.Update(src, d)])
  }

  ghost function Worked(cfg: Config, s: Durable, fails: bool): Durable
  {
    if s.jobs == [] then s
    else
      var id := s.jobs[0].target.id;
      Durable(PutIn(s.records, id, Final(cfg, s.jobs[0], SlotIn(s.records, id))), if fails then s.jobs else s.jobs[1..])
  }

  /** What was appended to the queue. */
  function Added(s: Durable, t: Durable): seq<Job>
  {
    if |s.jobs| <= |t.jobs| then t.jobs[|s.jobs|..] else []
  }

  /** `ask` is served, and `next` enqueues just what that appended to the queue. */
  ghost predicate Moves(cfg: Config, active: Cells -> bool, ask: Ask, now: seq<System>, next: seq<System>, s: Durable,
                        t: Durable)
  {
    && now != [] && next != [] && Served(cfg, active, ask, s, t)
    && next[|next| - 1].enqueued == now[|now| - 1].enqueued + Added(s, t)
  }

  ghost function TargetIds(jobs: seq<Job>): set<DlId>
  {
    set job | job in jobs :: job.target.id
  }

  /** The ids of stored deployments and queued jobs. */
  ghost function Ids(engine: NativeEngine): set<DlId>
    reads engine.storage, engine.queue
  {
    engine.storage.records.Keys + TargetIds(engine.queue.jobs)
  }

  /** `job` was queued and no stored workload changed. */
  lemma QueuedOne(cfg: Config, now: seq<System>, was: Records, records: Records, jobs: seq<Job>, job: Job)
    requires IsRun(cfg, now) && WellFormed(cfg, job) && job.target.id in records
    requires Cellular(records) == Cellular(was)
    ensures IsRun(cfg, now + [WithJob(now[|now| - 1], job)])
    ensures records.Keys + TargetIds(jobs + [job]) <= was.Keys + TargetIds(jobs)
  {
    JobIsStep(cfg, now, job);
    assert records.Keys == Cellular(records).Keys == Cellular(was).Keys == was.Keys;
  }

  method ServeSubmit(engine: NativeEngine, d: Deployment, ghost now: seq<System>) returns (ghost next: seq<System>)
    requires engine.storage.Valid() && Tracks(engine, now, now) && Askable(Submit(d), now[|now| - 1])
    modifies engine.storage, engine.queue
    ensures engine.storage.Valid() && Tracks(engine, now, next) && Ids(engine) <= old(Ids(engine)) + {d.id}
    ensures Moves(engine.Cfg(), engine.active, Submit(d), now, next, old(DurableOf(engine)), DurableOf(engine))
  {
    ghost var cfg, s := engine.Cfg(), now[|now| - 1];
    var r := engine.Provision(d);
    next := now;
    if r == Accepted {
      ghost var cells := Initial(d.workloads);
      ghost var t := s.(store := s.store[d.id := cells], events := s.events + [Created(d.id, cells)]);
      assert Create(s, t);
      RunMore(cfg, now, t);
      JobIsStep(cfg, now + [t], Job.Provision(d));
      next := now + [t] + [WithJob(t, Job.Provision(d))];
    }
  }

  method ServeHold(engine: NativeEngine, id: DlId, ghost now: seq<System>) returns (ghost next: seq<System>)
    requires engine.storage.Valid() && Tracks(engine, now, now)
    modifies engine.queue
    ensures Tracks(engine, now, next) && Ids(engine) <= old(Ids(engine))
    ensures Moves(engine.Cfg(), engine.active, Hold(id), now, next, old(DurableOf(engine)), DurableOf(engine))
  {
    ghost var was, jobs := engine.storage.records, engine.queue.jobs;
    var r := engine.Pause(id);
    next := now;
    if r == Accepted {
      ghost var job := engine.queue.jobs[|engine.queue.jobs| - 1];
      QueuedOne(engine.Cfg(), now, was, engine.storage.records, jobs, job);
      next := now + [WithJob(now[|now| - 1], job)];
    }
  }

  method ServeRelease(engine: NativeEngine, id: DlId, ghost now: seq<System>) returns (ghost next: seq<System>)
    requires engine.storage.Valid() && Tracks(engine, now, now)
    modifies engine.queue
    ensures Tracks(engine, now, next) && Ids(engine) <= old(Ids(engine))
    ensures Moves(engine.Cfg(), engine.active, Release(id), now, next, old(DurableOf(engine)), DurableOf(engine))
  {
    ghost var was, jobs := engine.storage.records, engine.queue.jobs;
    var r := engine.Resume(id);
    next := now;
    if r == Accepted {
      ghost var job := engine.queue.jobs[|engine.queue.jobs| - 1];
      QueuedOne(engine.Cfg(), now, was, engine.storage.records, jobs, job);
      next := now + [WithJob(now[|now| - 1], job)];
    }
  }

  method ServeCancel(engine: NativeEngine, id: DlId, reason: string,
                     ghost now: seq<System>) returns (ghost next: seq<System>)
    requires engine.storage.Valid() && Tracks(engine, now, now)
    modifies engine.queue
    ensures Tracks(engine, now, next) && Ids(engine) <= old(Ids(engine))
    ensures Moves(engine.Cfg(), engine.active, Cancel(id, reason), now, next, old(DurableOf(engine)), DurableOf(engine))
  {
    ghost var was, jobs := engine.storage.records, engine.queue.jobs;
    var r := engine.Deprovision(id, reason);
    next := now;
    if r == Accepted {
      ghost var job := engine.queue.jobs[|engine.queue.jobs| - 1];
      QueuedOne(engine.Cfg(), now, was, engine.storage.records, jobs, job);
      next := now + [WithJob(now[|now| - 1], job)];
    }
  }

  method ServeAmend(engine: NativeEngine, update: Deployment, ghost now: seq<System>) returns (ghost next: seq<System>)
    requires engine.storage.Valid() && Tracks(engine, now, now) && UpgradesOnce(engine)
    modifies engine.storage, engine.queue
    ensures engine.storage.Valid() && Tracks(engine, now, next) && Ids(engine) <= old(Ids(engine))
    ensures Moves(engine.Cfg(), engine.active, Amend(update), now, next, old(DurableOf(engine)), DurableOf(engine))
  {
    ghost var was, jobs := engine.storage.records, engine.queue.jobs;
    var r := engine.Update(update);
    next := now;
    if r == Accepted {
      ghost var job := engine.queue.jobs[|engine.queue.jobs| - 1];
      QueuedOne(engine.Cfg(), now, was, engine.storage.records, jobs, job);
      next := now + [WithJob(now[|now| - 1], job)];
    }
  }

  method ServeStart(engine: NativeEngine, ghost now: seq<System>) returns (ghost next: seq<System>)
    requires engine.storage.Valid() && Tracks(engine, now, now)
    modifies engine.queue
    ensures Tracks(engine, now, next) && Ids(engine) <= old(Ids(engine))
    ensures Moves(engine.Cfg(), engine.active, Start, now, next, old(DurableOf(engine)), DurableOf(engine))
  {
    ghost var was, store := engine.queue.jobs, Cellular(engine.storage.records);
    engine.RunBoot();
    ghost var jobs: seq<Job> :| engine.queue.jobs == was + jobs && Booted(engine.active, store, jobs);
    forall i | 0 <= i < |jobs| ensures WellFormed(engine.Cfg(), jobs[i]) && jobs[i].target.id in store {
      assert ReinstallsStored(engine.active, store, jobs[i]);
    }
    next := JobsAreSteps(engine.Cfg(), now, jobs);
  }

  method ServeWork(engine: NativeEngine, fails: bool, ghost now: seq<System>) returns (ghost next: seq<System>)
    requires engine.storage.Valid() && Tracks(engine, now, now)
    modifies engine.storage, engine.queue, engine`calls
    ensures engine.storage.Valid() && engine.Cfg() == old(engine.Cfg()) && Tracks(engine, now, next)
    ensures Ids(engine) <= old(Ids(engine))
    ensures Moves(engine.Cfg(), engine.active, Work(fails), now, next, old(DurableOf(engine)), DurableOf(engine))
  {
    next := now;
    if |engine.queue.jobs| != 0 {
      next := RunRound(engine, fails, now, now);
    }
  }

  ghost function SubmittedIds(asks: seq<Ask>): set<DlId>
  {
    set ask | ask in asks && ask.Submit? :: ask.deployment.id
  }

  /** Whatever is asked of the engine class is a continuation of the run of the system. */
  method Serve(engine: NativeEngine, ask: Ask, ghost now: seq<System>) returns (ghost next: seq<System>)
    requires engine.storage.Valid() && UpgradesOnce(engine) && Tracks(engine, now, now) && Askable(ask, now[|now| - 1])
    modifies engine.storage, engine.queue, engine`calls
    ensures engine.storage.Valid() && engine.Cfg() == old(engine.Cfg()) && Tracks(engine, now, next)
    ensures Ids(engine) <= old(Ids(engine)) + SubmittedIds([ask])
    ensures Moves(engine.Cfg(), engine.active, ask, now, next, old(DurableOf(engine)), DurableOf(engine))
  {
    match ask {
      case Submit(d) =>
        next := ServeSubmit(engine, d, now);
      case Hold(id) => next := ServeHold(engine, id, now);
      case Release(id) => next := ServeRelease(engine, id, now);
      case Cancel(id, reason) => next := ServeCancel(engine, id, reason, now);
      case Amend(d) => next := ServeAmend(engine, d, now);
      case Start => next := ServeStart(engine, now);
      case Work(fails) => next := ServeWork(engine, fails, now);
    }
  }

  /** Submitted deployments have distinct names, and ids that nobody used before. */
  ghost predicate Fresh(asks: seq<Ask>, used: set<DlId>)
  {
    forall i :: 0 <= i < |asks| && asks[i].Submit? ==>
      && DistinctNames(asks[i].deployment.workloads)
      && asks[i].deployment.id !in used + SubmittedIds(asks[..i])
  }

  lemma SubmittedMore(asks: seq<Ask>, i: nat)
    requires i < |asks|
    ensures SubmittedIds(asks[..i + 1]) == SubmittedIds(asks[..i]) + SubmittedIds([asks[i]])
  {
    assert asks[..i + 1] == asks[..i] + [asks[i]];
  }

  /** What the first `n` steps between `states` appended to the queue. */
  function AddedTo(states: seq<Durable>, n: nat): seq<Job>
    requires n < |states|
  {
    if n == 0 then [] else AddedTo(states, n - 1) + Added(states[n - 1], states[n])
  }

  lemma {:induction false} AddedFrame(states: seq<Durable>, t: Durable, n: nat)
    requires n < |states|
    ensures AddedTo(states + [t], n) == AddedTo(states, n)
  {
    if n > 0 { AddedFrame(states, t, n - 1); }
  }

  /** A step of a history, as a function value. */
  ghost function ServedBy(cfg: Config, active: Cells -> bool): (Ask, Durable, Durable) -> bool
  {
    (ask, s, t) => Served(cfg, active, ask, s, t)
  }

  /** `states` leads, ask by ask, from `first` to `last`. */
  ghost predicate Leads(step: (Ask, Durable, Durable) -> bool, asks: seq<Ask>, states: seq<Durable>, first: Durable,
                        last: Durable)
  {
    && |states| == |asks| + 1 && states[0] == first && states[|asks|] == last
    && forall i :: 0 <= i < |asks| ==> step(asks[i], states[i], states[i + 1])
  }

  lemma LeadsMore(step: (Ask, Durable, Durable) -> bool, asks: seq<Ask>, ask: Ask, states: seq<Durable>, first: Durable,
                  s: Durable, t: Durable)
    requires Leads(step, asks, states, first, s) && step(ask, s, t)
    ensures Leads(step, asks + [ask], states + [t], first, t)
    ensures AddedTo(states + [t], |asks| + 1) == AddedTo(states, |asks|) + Added(s, t)
  {
    AddedFrame(states, t, |asks|);
  }

  /** `states` serves `asks` up to the present state, and `next` continues `run` by it, enqueueing just
      what was appended to the queue. */
  ghost predicate History(engine: NativeEngine, asks: seq<Ask>, run: seq<System>, next: seq<System>,
                          states: seq<Durable>,
                          first: Durable)
    reads engine, engine.storage, engine.queue
  {
    && Tracks(engine, run, next)
    && Leads(ServedBy(engine.Cfg(), engine.active), asks, states, first, DurableOf(engine))
    && next[|next| - 1].enqueued == run[|run| - 1].enqueued + AddedTo(states, |asks|)
  }

  lemma FreshIsAskable(asks: seq<Ask>, i: nat, used: set<DlId>, s: System)
    requires Fresh(asks, used) && i < |asks| && TargetIds(s.queue) <= used + SubmittedIds(asks[..i])
    ensures Askable(asks[i], s)
  {
    if asks[i].Submit? && s.queue != [] {
      assert s.queue[0].target.id in TargetIds(s.queue);
    }
  }

  lemma IdsMore(asks: seq<Ask>, i: nat, used: set<DlId>, before: set<DlId>, after: set<DlId>)
    requires i < |asks| && before <= used + SubmittedIds(asks[..i]) && after <= before + SubmittedIds([asks[i]])
    ensures after <= used + SubmittedIds(asks[..i + 1])
  {
    SubmittedMore(asks, i);
  }

  lemma EnqueuedMore(a: seq<Job>, b: seq<Job>, c: seq<Job>)
    ensures a + b + c == a + (b + c)
  {}

  /** One more of the asks. */
  method ServeNext(engine: NativeEngine, asks: seq<Ask>, i: nat, ghost run: seq<System>, ghost now: seq<System>,
                   ghost states: seq<Durable>, ghost first: Durable, ghost used: set<DlId>)
    returns (ghost next: seq<System>, ghost more: seq<Durable>)
    requires engine.storage.Valid() && UpgradesOnce(engine) && Fresh(asks, used) && i < |asks|
    requires History(engine, asks[..i], run, now, states, first) && Ids(engine) <= used + SubmittedIds(asks[..i])
    modifies engine.storage, engine.queue, engine`calls
    ensures engine.storage.Valid() && engine.Cfg() == old(engine.Cfg())
    ensures History(engine, asks[..i + 1], run, next, more, first) && Ids(engine) <= used + SubmittedIds(asks[..i + 1])
  {
    ghost var s, ids, step := DurableOf(engine), Ids(engine), ServedBy(engine.Cfg(), engine.active);
    FreshIsAskable(asks, i, used, now[|now| - 1]);
    next := Serve(engine, asks[i], now);
    ghost var t := DurableOf(engine);
    more := states + [t];
    IdsMore(asks, i, used, ids, Ids(engine));
    LeadsMore(step, asks[..i], asks[i], states, first, s, t);
    EnqueuedMore(run[|run| - 1].enqueued, AddedTo(states, i), Added(s, t));
    assert asks[..i + 1] == asks[..i] + [asks[i]];
  }

  /** The engine class under any sequence of requests, starts after a reboot and rounds of the loop, with
      failing dequeues. `states` shows each of them served; the history is a run of the system, with
      exactly the jobs that were queued for them enqueued, so all theorems about runs hold of it; and
      whenever the queue is empty at the end, every job has taken effect exactly once, in order. */
  method Daemon(engine: NativeEngine, asks: seq<Ask>, ghost run: seq<System>) returns (ghost next: seq<System>,
                ghost states: seq<Durable>)
    requires engine.storage.Valid() && NoDuplicates(engine.order) && UpgradesOnce(engine) && Tracks(engine, run, run)
    requires Fresh(asks, Ids(engine))
    modifies engine.storage, engine.queue, engine`calls
    ensures engine.storage.Valid() && engine.Cfg() == old(engine.Cfg())
    ensures History(engine, asks, run, next, states, old(DurableOf(engine)))
    ensures engine.queue.jobs == [] ==> Settled(engine.Cfg(), run, next)
  {
    ghost var cfg, used, first := engine.Cfg(), Ids(engine), DurableOf(engine);
    next, states := run, [first];
    for i := 0 to |asks|
      invariant engine.storage.Valid() && engine.Cfg() == cfg
      invariant History(engine, asks[..i], run, next, states, first) && Ids(engine) <= used + SubmittedIds(asks[..i])
    {
      next, states := ServeNext(engine, asks, i, run, next, states, first, used);
    }
    assert asks[..|asks|] == asks;
    ExactlyOnce(cfg, next);
  }
}
