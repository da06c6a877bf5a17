/** Whole cycles of the daemon: a start after a reboot, and rounds of reconciliation. */
module Cycles {
  import opened Workloads
  import opened Outcomes
  import opened Plans
  import opened Jobs
  import opened Replay
  import opened Runs
  import opened Boot
  import opened Storage
  import opened Engine
  import opened Running
  import opened Reconcile
  import opened Events

  /** `store` and `calls` with `jobs` still to do come to `storeEnd` and `callsEnd`. */
  ghost predicate ComesTo(cfg: Config, store: Store, calls: seq<Call>, jobs: seq<Job>, storeEnd: Store,
                          callsEnd: seq<Call>)
  {
    DrainStore(cfg, store, jobs) == storeEnd && calls + DrainCalls(cfg, store, jobs) == callsEnd
  }

  lemma ComesNearer(cfg: Config, m: Machine, jobs: seq<Job>, storeEnd: Store, callsEnd: seq<Call>)
    requires jobs != [] && ComesTo(cfg, Cellular(m.records), m.calls, jobs, storeEnd, callsEnd)
    ensures var id := jobs[0].target.id;
      var next := Perform(m, id, JobEffect(cfg, jobs[0], SlotIn(m.records, id)));
      ComesTo(cfg, Cellular(next.records), next.calls, jobs[1..], storeEnd, callsEnd)
  {
    PerformIsPut(cfg, m, jobs[0]);
    var id, store := jobs[0].target.id, Cellular(m.records);
    var e := JobEffect(cfg, jobs[0], SlotIn(m.records, id));
    assert SlotOf(store, id) == SlotIn(m.records, id);
    var after := PutSlot(store, id, Final(cfg, jobs[0], SlotOf(store, id)));
    var rest := DrainCalls(cfg, after, jobs[1..]);
    assert DrainStore(cfg, store, jobs) == DrainStore(cfg, after, jobs[1..]);
    assert DrainCalls(cfg, store, jobs) == e.calls + rest;
    CallsAssociate(m.calls, e.calls, rest);
  }

  lemma CallsAssociate(a: seq<Call>, b: seq<Call>, c: seq<Call>)
    ensures a + (b + c) == (a + b) + c
  {}

  /** `Run` without faults until the queue is empty: every job takes its deployment to its own
      final state and makes its own calls. */
  method Drain(engine: NativeEngine)
    requires engine.storage.Valid()
    modifies engine.storage, engine.queue, engine`calls
    ensures engine.storage.Valid() && engine.Cfg() == old(engine.Cfg()) && engine.queue.jobs == []
    ensures Cellular(engine.storage.records) ==
      DrainStore(engine.Cfg(), old(Cellular(engine.storage.records)), old(engine.queue.jobs))
    ensures engine.calls == old(engine.calls)
      + DrainCalls(engine.Cfg(), old(Cellular(engine.storage.records)), old(engine.queue.jobs))
  {
    ghost var cfg, store, jobs := engine.Cfg(), Cellular(engine.storage.records), engine.queue.jobs;
    ghost var storeEnd, callsEnd := DrainStore(cfg, store, jobs), engine.calls + DrainCalls(cfg, store, jobs);
    while |engine.queue.jobs| != 0
      invariant engine.storage.Valid() && engine.Cfg() == cfg
      invariant ComesTo(cfg, Cellular(engine.storage.records), engine.calls, engine.queue.jobs, storeEnd, callsEnd)
      decreases |engine.queue.jobs|
    {
      ComesNearer(cfg, engine.State(), engine.queue.jobs, storeEnd, callsEnd);
      var notified := engine.RunOnce(false);
    }
  }

  /** How often a start provisions `w` of `id`. */
  function DueAt(cfg: Config, active: Cells -> bool, store: Store, id: DlId, w: Workload): nat
  {
    if id in store && active(store[id]) then Due(cfg, store[id], w) else 0
  }

  /** A start after a reboot, with an empty queue and every contract lookup passing: Provision is
      called exactly once for each workload of an active stored deployment that is neither deleted
      nor in error, and no other call is made. */
  method Reboot(engine: NativeEngine)
    requires engine.storage.Valid() && NoDuplicates(engine.order) && engine.queue.jobs == []
    requires forall job: Job :: engine.check(job) == None
    modifies engine.storage, engine.queue, engine`calls
    ensures engine.storage.Valid() && engine.queue.jobs == []
    ensures old(engine.calls) <= engine.calls
    ensures forall id, w ::
      multiset(engine.calls[|old(engine.calls)|..])[ProvisionCall(id, w)]
      == DueAt(engine.Cfg(), engine.active, old(Cellular(engine.storage.records)), id, w)
    ensures forall c :: c in engine.calls[|old(engine.calls)|..] ==> c.ProvisionCall?
  {
    ghost var cfg, store, before := engine.Cfg(), Cellular(engine.storage.records), engine.calls;
    engine.RunBoot();
    ghost var jobs :| engine.queue.jobs == [] + jobs && Booted(engine.active, store, jobs);
    assert engine.queue.jobs == jobs;
    Drain(engine);
    BootCalls(cfg, engine.active, store, jobs);
    assert engine.calls[|before|..] == DrainCalls(cfg, store, jobs);
  }

  lemma BootCalls(cfg: Config, active: Cells -> bool, store: Store, jobs: seq<Job>)
    requires NoDuplicates(cfg.order) && Booted(active, store, jobs)
    requires forall i :: 0 <= i < |jobs| ==> !Refused(cfg, jobs[i])
    ensures var calls := DrainCalls(cfg, store, jobs);
      && (forall id, w :: multiset(calls)[ProvisionCall(id, w)] == DueAt(cfg, active, store, id, w))
      && (forall c :: c in calls ==> c.ProvisionCall?)
  {
    forall id, w {
      ReinstallsOnce(cfg, active, store, jobs, id, w);
    }
    forall c | c in DrainCalls(cfg, store, jobs) ensures c.ProvisionCall? {
      ReinstallsOnce(cfg, active, store, jobs, c.id, c.wl);
    }
  }

  /** A round of reconciliation continues the run of the system too. */
  method ServeSync(handler: ContractEventHandler, chain: Chain,
                   ghost now: seq<System>) returns (ghost next: seq<System>)
    requires handler.engine.storage.Valid() && ContractsUnique(Cellular(handler.engine.storage.records))
    requires Tracks(handler.engine, now, now)
    modifies handler.engine.queue
    ensures Tracks(handler.engine, now, next)
    ensures exists jobs ::
      && handler.engine.queue.jobs == old(handler.engine.queue.jobs) + jobs
      && Corrective(chain, Cellular(handler.engine.storage.records), jobs)
  {
    var engine := handler.engine;
    ghost var was, store := engine.queue.jobs, Cellular(engine.storage.records);
    handler.Sync(chain);
    ghost var jobs: seq<Job> :| engine.queue.jobs == was + jobs && Corrective(chain, store, jobs);
    forall i | 0 <= i < |jobs| ensures WellFormed(engine.Cfg(), jobs[i]) {
      assert CorrectiveJob(chain, store, jobs[i]);
    }
    next := JobsAreSteps(engine.Cfg(), now, jobs);
  }

  lemma DrainKeepsUnique(cfg: Config, before: Records, after: Records, chain: Chain, jobs: seq<Job>)
    requires ContractsUnique(Cellular(before)) && Corrective(chain, Cellular(before), jobs)
    requires Cellular(after) == DrainStore(cfg, Cellular(before), jobs)
    ensures ContractsUnique(Cellular(after))
  {
    var store, end := Cellular(before), Cellular(after);
    DrainSlots(cfg, store, jobs);
    forall id | id in after ensures id in before {
      assert id in end;
      if Targeted(jobs, id) {
        var i :| 0 <= i < |jobs| && jobs[i].target.id == id;
        assert CorrectiveJob(chain, store, jobs[i]);
      } else {
        assert SlotOf(end, id) == SlotOf(store, id);
      }
    }
  }

  /** Two rounds of reconciliation against the same chain, each corrective job carried out without
      faults before the second: the second round finds nothing to do exactly if one correction is
      enough for every stored deployment. */
  method SyncTwice(handler: ContractEventHandler, managers: map<WorkloadType, Manager>,
                   chain: Chain) returns (idle: bool)
    requires var e := handler.engine;
      && e.storage.Valid() && NoDuplicates(e.order) && e.prov == MapProvisioner(managers)
      && e.queue.jobs == [] && ContractsUnique(Cellular(e.storage.records))
    modifies handler.engine.storage, handler.engine.queue, handler.engine`calls
    ensures idle == (handler.engine.queue.jobs == [])
    ensures idle <==>
      forall id :: id in old(handler.engine.storage.records) ==>
        Converges(handler.engine.Cfg(), managers, chain, id, old(handler.engine.storage.records)[id].cells)
  {
    var engine := handler.engine;
    ghost var cfg, before := engine.Cfg(), engine.storage.records;
    handler.Sync(chain);
    ghost var jobs :| engine.queue.jobs == [] + jobs && Corrective(chain, Cellular(before), jobs);
    assert engine.queue.jobs == jobs;
    Drain(engine);
    DrainKeepsUnique(cfg, before, engine.storage.records, chain, jobs);
    handler.Sync(chain);
    ghost var drained := DrainStore(cfg, Cellular(before), jobs);
    ghost var again :| engine.queue.jobs == [] + again && Corrective(chain, drained, again);
    assert engine.queue.jobs == again;
    Fixpoint(cfg, managers, chain, Cellular(before), jobs, again);
    idle := |engine.queue.jobs| == 0;
  }
}
