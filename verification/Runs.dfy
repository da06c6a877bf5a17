/** Whole runs of the engine: the durable queue, the engine loop, the API calls that add work, and
    crashes between any two steps. */
module Runs {
  import opened Workloads
  import opened Plans
  import opened Jobs
  import opened Replay

  type Store = map<DlId, Cells>

  function SlotOf(store: Store, id: DlId): Slot
  {
    if id in store then Some(store[id]) else None
  }

  function PutSlot(store: Store, id: DlId, slot: Slot): Store
  {
    match slot case None => store - {id} case Some(cells) => store[id := cells]
  }

  /** The loop is idle, or in the middle of the head job: it found the deployment as `start` and
      has finished `done` writes. */
  datatype Phase = Idle | Working(start: Slot, done: nat)

  datatype Event = Created(id: DlId, cells: Cells) | Completed(job: Job)

  /** `store` and `queue` survive a crash, `phase` does not. The other fields record the past:
      whether the head job has been started before, every job enqueued and every job dequeued, the
      number of jobs dequeued at each job start, and the order of creations and completions. */
  datatype System = System(
    store: Store,
    queue: seq<Job>,
    phase: Phase,
    begun: bool,
    enqueued: seq<Job>,
    finished: seq<Job>,
    starts: seq<nat>,
    events: seq<Event>)

  ghost predicate Start(s: System)
  {
    && s.queue == [] && s.phase == Idle && !s.begun
    && s.enqueued == [] && s.finished == [] && s.starts == [] && s.events == []
  }

  function Head(s: System): DlId requires s.queue != [] { s.queue[0].target.id }

  /** Any job may be enqueued at any moment, also while another one runs. */
  ghost predicate Enqueue(cfg: Config, s: System, t: System)
  {
    exists job :: WellFormed(cfg, job) && t == s.(queue := s.queue + [job], enqueued := s.enqueued + [job])
  }

  /** A new deployment starts with every workload in state init. */
  ghost predicate AllInit(cells: Cells)
  {
    forall n :: n in cells ==> cells[n].result.state == Init
  }

  /** `storage.Create`, at any moment at which the head job, if it was started, is not about the new
      deployment: contract ids are not used twice. */
  ghost predicate Create(s: System, t: System)
  {
    exists id, cells ::
      && id !in s.store && AllInit(cells)
      && (s.begun && s.queue != [] ==> Head(s) != id)
      && t == s.(store := s.store[id := cells], events := s.events + [Created(id, cells)])
  }

  /** The loop peeks the head and starts on it. */
  ghost predicate Begin(s: System, t: System)
  {
    && s.phase == Idle && s.queue != []
    && t == s.(phase := Working(SlotOf(s.store, Head(s)), 0), begun := true, starts := s.starts + [|s.finished|])
  }

  /** The next storage write of the running job. */
  ghost predicate Write(cfg: Config, s: System, t: System)
  {
    && s.phase.Working? && s.queue != []
    && var e := JobEffect(cfg, s.queue[0], s.phase.start);
    && s.phase.done < |e.writes|
    && t == s.(store := PutSlot(s.store, Head(s), e.writes[s.phase.done]),
               phase := Working(s.phase.start, s.phase.done + 1))
  }

  ghost predicate AllWritten(cfg: Config, s: System)
  {
    && s.phase.Working? && s.queue != []
    && s.phase.done == |JobEffect(cfg, s.queue[0], s.phase.start).writes|
  }

  /** The finished job leaves the queue. */
  ghost predicate Dequeue(cfg: Config, s: System, t: System)
  {
    && AllWritten(cfg, s)
    && t == s.(queue := s.queue[1..], phase := Idle, begun := false,
               finished := s.finished + [s.queue[0]], events := s.events + [Completed(s.queue[0])])
  }

  /** The queue fails to drop the finished job: the loop goes round and peeks it again. */
  ghost predicate DequeueFails(cfg: Config, s: System, t: System)
  {
    AllWritten(cfg, s) && t == s.(phase := Idle)
  }

  /** The process dies and comes back, between any two writes. */
  ghost predicate Crash(s: System, t: System)
  {
    t == s.(phase := Idle)
  }

  ghost predicate Next(cfg: Config, s: System, t: System)
  {
    || Enqueue(cfg, s, t) || Create(s, t) || Begin(s, t) || Write(cfg, s, t)
    || Dequeue(cfg, s, t) || DequeueFails(cfg, s, t) || Crash(s, t)
  }

  ghost predicate IsRun(cfg: Config, run: seq<System>)
  {
    && run != [] && Start(run[0])
    && forall i :: 0 < i < |run| ==> Next(cfg, run[i - 1], run[i])
  }

  function Apply(cfg: Config, store: Store, e: Event): Store
  {
    match e
    case Created(id, cells) => store[id := cells]
    case Completed(job) => PutSlot(store, job.target.id, Final(cfg, job, SlotOf(store, job.target.id)))
  }

  /** The reference: creations and completions replayed in order, each completed job applied to
      its deployment exactly once and without interruption. */
  function Ledger(cfg: Config, initial: Store, events: seq<Event>): Store
  {
    if events == [] then initial
    else Apply(cfg, Ledger(cfg, initial, events[..|events| - 1]), events[|events| - 1])
  }

  function JobOf(e: Event): seq<Job>
  {
    match e case Created(_, _) => [] case Completed(job) => [job]
  }

  function CompletedJobs(events: seq<Event>): seq<Job>
  {
    if events == [] then [] else CompletedJobs(events[..|events| - 1]) + JobOf(events[|events| - 1])
  }

  // ---------- the invariant ----------

  /** The store agrees with the reference, except that a head job that has been started may have
      left its own deployment anywhere the job can still bring it home from. */
  ghost predicate Agrees(cfg: Config, base: Store, s: System)
  {
    && (s.begun ==> s.queue != [])
    && (!s.begun ==> s.phase == Idle && s.store == base)
    && (s.begun ==>
          && (forall id :: id != Head(s) ==> SlotOf(s.store, id) == SlotOf(base, id))
          && Final(cfg, s.queue[0], SlotOf(s.store, Head(s))) == Final(cfg, s.queue[0], SlotOf(base, Head(s))))
    && (s.phase.Working? ==>
          var e := JobEffect(cfg, s.queue[0], s.phase.start);
          && s.begun && s.phase.done <= |e.writes|
          && SlotOf(s.store, Head(s)) == Point(s.phase.start, e, s.phase.done)
          && Final(cfg, s.queue[0], s.phase.start) == Final(cfg, s.queue[0], SlotOf(base, Head(s))))
  }

  /** Starts only repeat the current job or move on to the next one. */
  ghost predicate Stutters(starts: seq<nat>)
  {
    && (starts != [] ==> starts[0] == 0)
    && forall i :: 0 < i < |starts| ==> starts[i - 1] <= starts[i] <= starts[i - 1] + 1
  }

  ghost predicate Fifo(s: System)
  {
    && s.enqueued == s.finished + s.queue
    && s.finished == CompletedJobs(s.events)
    && Stutters(s.starts)
    && |s.starts| >= |s.finished| + (if s.begun then 1 else 0)
    && (if s.starts == [] then s.finished == [] && !s.begun
        else s.starts[|s.starts| - 1] + (if s.begun then 0 else 1) == |s.finished|)
  }

  ghost predicate QueueWellFormed(cfg: Config, s: System)
  {
    forall i :: 0 <= i < |s.queue| ==> WellFormed(cfg, s.queue[i])
  }

  ghost predicate Invariant(cfg: Config, initial: Store, s: System)
  {
    QueueWellFormed(cfg, s) && Agrees(cfg, Ledger(cfg, initial, s.events), s) && Fifo(s)
  }

  lemma SlotsDetermine(a: Store, b: Store)
    requires forall id :: SlotOf(a, id) == SlotOf(b, id)
    ensures a == b
  {
    forall id ensures id in a <==> id in b {
      assert SlotOf(a, id) == SlotOf(b, id);
    }
    forall id | id in a ensures a[id] == b[id] {
      assert SlotOf(a, id) == SlotOf(b, id);
    }
  }

  lemma PutGet(store: Store, id: DlId, slot: Slot, other: DlId)
    ensures SlotOf(PutSlot(store, id, slot), other) == if other == id then slot else SlotOf(store, other)
  {}

  lemma LedgerAppend(cfg: Config, initial: Store, events: seq<Event>, e: Event)
    ensures Ledger(cfg, initial, events + [e]) == Apply(cfg, Ledger(cfg, initial, events), e)
  {
    assert (events + [e])[..|events + [e]| - 1] == events;
  }

  lemma CompletedAppend(events: seq<Event>, e: Event)
    ensures CompletedJobs(events + [e]) == CompletedJobs(events) + JobOf(e)
  {
    assert (events + [e])[..|events + [e]| - 1] == events;
  }

  lemma FifoBegin(s: System)
    requires Fifo(s)
    ensures Fifo(s.(begun := true, starts := s.starts + [|s.finished|]))
  {}

  lemma FifoDequeue(s: System)
    requires Fifo(s) && s.queue != [] && s.begun
    ensures Fifo(s.(queue := s.queue[1..], begun := false,
                    finished := s.finished + [s.queue[0]], events := s.events + [Completed(s.queue[0])]))
  {
    CompletedAppend(s.events, Completed(s.queue[0]));
    assert s.finished + s.queue == s.finished + [s.queue[0]] + s.queue[1..];
  }

  lemma FifoCreate(s: System, id: DlId, cells: Cells)
    requires Fifo(s)
    ensures Fifo(s.(events := s.events + [Created(id, cells)]))
  {
    CompletedAppend(s.events, Created(id, cells));
  }

  lemma FifoEnqueue(s: System, job: Job)
    requires Fifo(s)
    ensures Fifo(s.(queue := s.queue + [job], enqueued := s.enqueued + [job]))
  {
    assert s.finished + (s.queue + [job]) == s.finished + s.queue + [job];
  }

  /** `Fifo` looks at neither store nor phase. */
  lemma FifoFrame(s: System, t: System)
    requires Fifo(s) && t == s.(store := t.store, phase := t.phase)
    ensures Fifo(t)
  {}

  lemma FifoKeeps(cfg: Config, s: System, t: System)
    requires Fifo(s) && (!s.begun ==> s.phase == Idle) && Next(cfg, s, t)
    ensures Fifo(t)
  {
    if Enqueue(cfg, s, t) {
      var job :| t == s.(queue := s.queue + [job], enqueued := s.enqueued + [job]);
      FifoEnqueue(s, job);
    } else if Create(s, t) {
      var id, cells :| t == s.(store := s.store[id := cells], events := s.events + [Created(id, cells)]);
      FifoCreate(s, id, cells);
      FifoFrame(s.(events := s.events + [Created(id, cells)]), t);
    } else if Begin(s, t) {
      FifoBegin(s);
      FifoFrame(s.(begun := true, starts := s.starts + [|s.finished|]), t);
    } else if Dequeue(cfg, s, t) {
      FifoDequeue(s);
      FifoFrame(s.(queue := s.queue[1..], begun := false,
                   finished := s.finished + [s.queue[0]], events := s.events + [Completed(s.queue[0])]), t);
    } else {
      FifoFrame(s, t);
    }
  }

  lemma QueueKeeps(cfg: Config, s: System, t: System)
    requires QueueWellFormed(cfg, s) && Next(cfg, s, t)
    ensures QueueWellFormed(cfg, t)
  {}

  lemma EnqueueAgrees(cfg: Config, base: Store, s: System, t: System)
    requires Agrees(cfg, base, s) && (Enqueue(cfg, s, t) || Crash(s, t) || DequeueFails(cfg, s, t) || Begin(s, t))
    ensures Agrees(cfg, base, t)
    ensures t.events == s.events
  {
    assert s.begun ==> t.queue[0] == s.queue[0];
  }

  lemma CreateAgrees(cfg: Config, base: Store, s: System, t: System, id: DlId, cells: Cells)
    requires Agrees(cfg, base, s)
    requires s.begun && s.queue != [] ==> Head(s) != id
    requires t == s.(store := s.store[id := cells], events := s.events + [Created(id, cells)])
    ensures Agrees(cfg, base[id := cells], t)
  {
    if s.begun {
      assert SlotOf(t.store, Head(s)) == SlotOf(s.store, Head(s));
      assert SlotOf(base[id := cells], Head(s)) == SlotOf(base, Head(s));
      forall other | other != Head(s) ensures SlotOf(t.store, other) == SlotOf(base[id := cells], other) {
        assert SlotOf(s.store, other) == SlotOf(base, other);
      }
    }
  }

  lemma WriteRecovers(cfg: Config, job: Job, start: Slot, e: Effect<Slot>, k: nat)
    requires NoDuplicates(cfg.order) && WellFormed(cfg, job)
    requires e == JobEffect(cfg, job, start) && k < |e.writes|
    ensures Final(cfg, job, e.writes[k]) == Final(cfg, job, start)
  {
    CrashReplay(cfg, job, start, k + 1);
    assert Point(start, e, k + 1) == e.writes[k];
  }

  lemma WriteAgrees(cfg: Config, base: Store, s: System, t: System)
    requires NoDuplicates(cfg.order)
    requires QueueWellFormed(cfg, s) && Agrees(cfg, base, s) && Write(cfg, s, t)
    ensures Agrees(cfg, base, t)
  {
    var job, start, k, head := s.queue[0], s.phase.start, s.phase.done, Head(s);
    var e := JobEffect(cfg, job, start);
    WriteRecovers(cfg, job, start, e, k);
    PutGet(s.store, head, e.writes[k], head);
    forall id | id != head ensures SlotOf(t.store, id) == SlotOf(base, id) {
      PutGet(s.store, head, e.writes[k], id);
    }
  }

  lemma DequeueAgrees(cfg: Config, base: Store, s: System, t: System)
    requires Agrees(cfg, base, s) && Dequeue(cfg, s, t)
    ensures Agrees(cfg, Apply(cfg, base, Completed(s.queue[0])), t)
  {
    var job := s.queue[0];
    var goal := Apply(cfg, base, Completed(job));
    assert SlotOf(s.store, Head(s)) == Final(cfg, job, s.phase.start);
    forall id ensures SlotOf(t.store, id) == SlotOf(goal, id) {
      PutGet(base, job.target.id, Final(cfg, job, SlotOf(base, job.target.id)), id);
    }
    SlotsDetermine(t.store, goal);
  }

  lemma NextKeeps(cfg: Config, initial: Store, s: System, t: System)
    requires NoDuplicates(cfg.order)
    requires Invariant(cfg, initial, s) && Next(cfg, s, t)
    ensures Invariant(cfg, initial, t)
  {
    var base := Ledger(cfg, initial, s.events);
    FifoKeeps(cfg, s, t);
    QueueKeeps(cfg, s, t);
    if Create(s, t) {
      var id, cells :|
        && id !in s.store && AllInit(cells)
        && (s.begun && s.queue != [] ==> Head(s) != id)
        && t == s.(store := s.store[id := cells], events := s.events + [Created(id, cells)]);
      CreateAgrees(cfg, base, s, t, id, cells);
      LedgerAppend(cfg, initial, s.events, Created(id, cells));
    } else if Write(cfg, s, t) {
      WriteAgrees(cfg, base, s, t);
    } else if Dequeue(cfg, s, t) {
      DequeueAgrees(cfg, base, s, t);
      LedgerAppend(cfg, initial, s.events, Completed(s.queue[0]));
    } else {
      EnqueueAgrees(cfg, base, s, t);
    }
  }

  lemma {:induction false} RunKeeps(cfg: Config, run: seq<System>)
    requires NoDuplicates(cfg.order) && IsRun(cfg, run)
    ensures Invariant(cfg, run[0].store, run[|run| - 1])
  {
    if |run| > 1 {
      RunKeeps(cfg, run[..|run| - 1]);
      NextKeeps(cfg, run[0].store, run[|run| - 2], run[|run| - 1]);
    }
  }

  // ---------- the theorems ----------

  /** The queue is a durable FIFO with at-least-once starts: over every run with crashes and
      failed dequeues, what was enqueued is what was dequeued followed by what is queued; jobs
      start in queue order, repeating only the current one, and the job counted as number `n` is
      started only when exactly `n` jobs have been dequeued. */
  lemma DurableFifo(cfg: Config, run: seq<System>)
    requires NoDuplicates(cfg.order) && IsRun(cfg, run)
    ensures var s := run[|run| - 1];
      && s.enqueued == s.finished + s.queue
      && Stutters(s.starts)
      && (forall n: nat :: n < |s.finished| ==> n in s.starts)
      && (forall i :: 0 <= i < |s.starts| ==> s.starts[i] <= |s.finished| && s.starts[i] < |s.enqueued|)
  {
    RunKeeps(cfg, run);
    assert Agrees(cfg, Ledger(cfg, run[0].store, run[|run| - 1].events), run[|run| - 1]);
    FifoOrder(run[|run| - 1]);
  }

  lemma FifoOrder(s: System)
    requires Fifo(s) && (s.begun ==> s.queue != [])
    ensures forall n: nat :: n < |s.finished| ==> n in s.starts
    ensures forall i :: 0 <= i < |s.starts| ==> s.starts[i] <= |s.finished| && s.starts[i] < |s.enqueued|
  {
    if s.starts != [] {
      StutterCovers(s.starts);
    }
  }

  lemma {:induction false} StutterCovers(starts: seq<nat>)
    requires starts != [] && Stutters(starts)
    ensures forall i :: 0 <= i < |starts| ==> starts[i] <= starts[|starts| - 1]
    ensures forall n: nat :: n <= starts[|starts| - 1] ==> n in starts
  {
    if |starts| > 1 {
      var front := starts[..|starts| - 1];
      StutterCovers(front);
      assert starts == front + [starts[|starts| - 1]];
      assert starts[|starts| - 2] <= starts[|starts| - 1] <= starts[|starts| - 2] + 1;
    }
  }

  /** Exactly once: although jobs are started again after crashes and failed dequeues, whenever the
      head job has not been started yet the store is what running each dequeued job exactly once,
      in queue order and without interruption, gives. */
  lemma ExactlyOnce(cfg: Config, run: seq<System>)
    requires NoDuplicates(cfg.order) && IsRun(cfg, run)
    ensures var s := run[|run| - 1];
      && CompletedJobs(s.events) == s.finished
      && (!s.begun ==> s.store == Ledger(cfg, run[0].store, s.events))
      && (s.queue == [] ==> s.finished == s.enqueued && s.store == Ledger(cfg, run[0].store, s.events))
  {
    RunKeeps(cfg, run);
  }

  /** At any moment of any run, completing the head job alone, from whatever a crash left, brings
      the store to what one more uninterrupted job gives. */
  lemma HeadRecovers(cfg: Config, run: seq<System>)
    requires NoDuplicates(cfg.order) && IsRun(cfg, run) && run[|run| - 1].queue != []
    ensures var s := run[|run| - 1];
      PutSlot(s.store, Head(s), Final(cfg, s.queue[0], SlotOf(s.store, Head(s))))
      == Ledger(cfg, run[0].store, s.events + [Completed(s.queue[0])])
  {
    RunKeeps(cfg, run);
    var s := run[|run| - 1];
    var job, base := s.queue[0], Ledger(cfg, run[0].store, s.events);
    LedgerAppend(cfg, run[0].store, s.events, Completed(job));
    var a := PutSlot(s.store, Head(s), Final(cfg, job, SlotOf(s.store, Head(s))));
    var b := Ledger(cfg, run[0].store, s.events + [Completed(job)]);
    forall id ensures SlotOf(a, id) == SlotOf(b, id) {
      PutGet(s.store, Head(s), Final(cfg, job, SlotOf(s.store, Head(s))), id);
      PutGet(base, Head(s), Final(cfg, job, SlotOf(base, Head(s))), id);
    }
    SlotsDetermine(a, b);
  }
}
