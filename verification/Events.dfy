/** The reconciler (cmds/modules/provisiond/events.go) on top of the engine. */
module Events {
  import opened Workloads
  import opened Jobs
  import opened Runs
  import opened Boot
  import opened Storage
  import opened Engine
  import opened Reconcile
  import opened Sums

  predicate IsLocked(ws: seq<Workload>)
  {
    exists i :: 0 <= i < |ws| && ws[i].result.state == Paused
  }

  lemma IsLockedLists(ws: seq<Workload>, cells: Cells)
    requires Lists(ws, cells)
    ensures IsLocked(ws) <==> LockedCells(cells)
  {
    if LockedCells(cells) {
      var n :| n in cells && cells[n].result.state == Paused;
      var i :| 0 <= i < |ws| && ws[i] == cells[n];
    }
  }

  /** No contract id belongs to two twins. */
  ghost predicate ContractsUnique(store: Store)
  {
    forall a, b :: a in store && b in store && a.contract == b.contract ==> a == b
  }

  class ContractEventHandler {
    const engine: NativeEngine

    constructor (engine: NativeEngine)
      ensures this.engine == engine
    {
      this.engine := engine;
    }

    /** `current`: the deployments `storage.Capacity` lists, by contract. */
    method Current() returns (running: map<nat, Deployment>)
      requires engine.storage.Valid() && ContractsUnique(Cellular(engine.storage.records))
      ensures forall c :: c in running ==> engine.storage.Okay(running[c]) && running[c].id.contract == c
      ensures forall id :: id in engine.storage.records && HasOkay(engine.storage.records[id].cells) ==>
        id.contract in running && running[id.contract].id == id
    {
      var dls := engine.storage.Capacity();
      running := map[];
      for i := 0 to |dls|
        invariant forall c :: c in running ==> engine.storage.Okay(running[c]) && running[c].id.contract == c
        invariant forall j :: 0 <= j < i ==> dls[j].id.contract in running
      {
        running := running[dls[i].id.contract := dls[i]];
      }
    }

    /** Moves the deployments the chain knows from `active` to `running`. */
    method Partition(all: map<nat, Deployment>, contracts: seq<nat>) returns (active: map<nat, Deployment>,
                     running: map<nat, Deployment>)
      requires forall c :: c in all ==> all[c].id.contract == c
      ensures active == map c | c in all && c !in contracts :: all[c]
      ensures running == map c | c in all && c in contracts :: all[c]
    {
      active, running := all, map[];
      for i := 0 to |contracts|
        invariant forall c :: c in active <==> c in all && c !in contracts[..i]
        invariant forall c :: c in active ==> active[c] == all[c]
        invariant forall c :: c in running <==> c in all && c in contracts[..i]
        invariant forall c :: c in running ==> running[c] == all[c]
      {
        var contract := contracts[i];
        if contract in active {
          var dl := active[contract];
          running := running[dl.id.contract := dl];
        }
        active := active - {contract};
        assert contracts[..i + 1] == contracts[..i] + [contract];
      }
      assert contracts[..|contracts|] == contracts;
    }

    /** Listed deployments, by contract. */
    ghost predicate Listed(dls: map<nat, Deployment>)
      reads engine.storage
    {
      forall c :: c in dls ==> engine.storage.Okay(dls[c]) && dls[c].id.contract == c
    }

    /** The queue is `base` followed by the corrections of the contracts in `done`. */
    ghost predicate Synced(chain: Chain, base: seq<Job>, jobs: seq<Job>, done: set<nat>)
      reads engine.storage, engine.queue
    {
      engine.queue.jobs == base + jobs && SyncedFor(chain, Cellular(engine.storage.records), jobs, done)
    }

    /** Uninstalls one deployment the chain does not know. */
    method DeprovisionOne(dl: Deployment, ghost chain: Chain, ghost base: seq<Job>, ghost jobs: seq<Job>,
                          ghost done: set<nat>)
      returns (ghost more: seq<Job>)
      requires engine.storage.Valid() && engine.storage.Okay(dl) && Synced(chain, base, jobs, done)
      requires dl.id.contract !in chain.contracts && dl.id.contract !in done
      modifies engine.queue
      ensures Synced(chain, base, more, done + {dl.id.contract})
    {
      var reply := engine.Deprovision(dl.id, "contract not active on chain");
      ghost var job := engine.queue.jobs[|engine.queue.jobs| - 1];
      SyncedMore(chain, Cellular(engine.storage.records), jobs, job, done);
      more := jobs + [job];
    }

    method DeprovisionAll(active: map<nat, Deployment>, ghost chain: Chain, ghost base: seq<Job>)
      returns (ghost jobs: seq<Job>)
      requires engine.storage.Valid() && Listed(active) && Synced(chain, base, [], {})
      requires forall c :: c in active ==> c !in chain.contracts
      modifies engine.queue
      ensures Synced(chain, base, jobs, active.Keys)
    {
      jobs := [];
      var left := active.Keys;
      ghost var done: set<nat> := {};
      while left != {}
        invariant left <= active.Keys && done == active.Keys - left
        invariant Synced(chain, base, jobs, done)
        decreases left
      {
        HasMember(left);
        var contract :| contract in left;
        var dl := active[contract];
        assert engine.storage.Okay(dl) && dl.id.contract == contract;
        jobs := DeprovisionOne(dl, chain, base, jobs, done);
        TakeOne(active.Keys, left, contract);
        left, done := left - {contract}, done + {contract};
      }
    }

    /** Pause or resume one deployment if the chain disagrees about it. */
    method Adjust(dl: Deployment, chain: Chain, ghost base: seq<Job>, ghost jobs: seq<Job>, ghost done: set<nat>)
      returns (ghost more: seq<Job>)
      requires engine.storage.Valid() && ContractsUnique(Cellular(engine.storage.records)) && engine.storage.Okay(dl)
      requires Synced(chain, base, jobs, done)
      requires dl.id.contract in chain.contracts && dl.id.contract !in done
      modifies engine.queue
      ensures Synced(chain, base, more, done + {dl.id.contract})
    {
      ghost var store := Cellular(engine.storage.records);
      IsLockedLists(dl.workloads, store[dl.id]);
      var contract := chain.locked(dl.id.contract);
      if contract.None? || contract.value == IsLocked(dl.workloads) {
        SyncedNothing(chain, store, jobs, dl.id, done);
        return jobs;
      }
      var reply;
      if contract.value {
        reply := engine.Pause(dl.id);
      } else {
        reply := engine.Resume(dl.id);
      }
      ghost var job := engine.queue.jobs[|engine.queue.jobs| - 1];
      SyncedMore(chain, store, jobs, job, done);
      more := jobs + [job];
    }

    method AdjustAll(running: map<nat, Deployment>, chain: Chain, ghost base: seq<Job>, ghost jobs: seq<Job>,
                     ghost done: set<nat>)
      returns (ghost all: seq<Job>)
      requires engine.storage.Valid() && ContractsUnique(Cellular(engine.storage.records)) && Listed(running)
      requires Synced(chain, base, jobs, done)
      requires forall c :: c in running ==> c in chain.contracts && c !in done
      modifies engine.queue
      ensures Synced(chain, base, all, done + running.Keys)
    {
      all := jobs;
      ghost var now := done;
      var left := running.Keys;
      while left != {}
        invariant left <= running.Keys && now == done + (running.Keys - left)
        invariant Synced(chain, base, all, now)
        decreases left
      {
        HasMember(left);
        var id :| id in left;
        var dl := running[id];
        assert engine.storage.Okay(dl) && dl.id.contract == id;
        all := Adjust(dl, chain, base, all, now);
        TakeOne(running.Keys, left, id);
        left, now := left - {id}, now + {id};
      }
    }

    /** `sync`: uninstall what the chain does not know, and pause or resume what disagrees with it. */
    method Sync(chain: Chain)
      requires engine.storage.Valid() && ContractsUnique(Cellular(engine.storage.records))
      modifies engine.queue
      ensures exists jobs ::
        engine.queue.jobs == old(engine.queue.jobs) + jobs && Corrective(chain, Cellular(engine.storage.records), jobs)
    {
      ghost var base := engine.queue.jobs;
      var all := Current();
      var active, running := Partition(all, chain.contracts);
      ghost var gone := DeprovisionAll(active, chain, base);
      ghost var jobs := AdjustAll(running, chain, base, gone, active.Keys);
      SyncedAll(chain, engine.storage.records, jobs, active.Keys + running.Keys);
    }
  }

  lemma HasMember(s: set<nat>)
    requires s != {}
    ensures exists c :: c in s
  {}

  /** `Corrective`, for the contracts in `done`. */
  ghost predicate SyncedFor(chain: Chain, store: Store, jobs: seq<Job>, done: set<nat>)
  {
    && ContractsUnique(store) && DistinctTargets(jobs)
    && (forall i :: 0 <= i < |jobs| ==> CorrectiveJob(chain, store, jobs[i]) && jobs[i].target.id.contract in done)
    && (forall id :: id in store && id.contract in done && NeedOf(chain, id.contract, store[id]) != Nothing ==>
          Targeted(jobs, id))
  }

  lemma SyncedMore(chain: Chain, store: Store, jobs: seq<Job>, job: Job, done: set<nat>)
    requires SyncedFor(chain, store, jobs, done) && CorrectiveJob(chain, store, job) && job.target.id.contract !in done
    ensures SyncedFor(chain, store, jobs + [job], done + {job.target.id.contract})
  {
    var more := jobs + [job];
    forall id | Targeted(jobs, id) ensures Targeted(more, id) {
      var i :| 0 <= i < |jobs| && jobs[i].target.id == id;
      assert more[i].target.id == id;
    }
    assert more[|jobs|] == job;
    assert Targeted(more, job.target.id);
  }

  lemma SyncedNothing(chain: Chain, store: Store, jobs: seq<Job>, id: DlId, done: set<nat>)
    requires SyncedFor(chain, store, jobs, done) && id in store && NeedOf(chain, id.contract, store[id]) == Nothing
    ensures SyncedFor(chain, store, jobs, done + {id.contract})
  {}

  lemma SyncedAll(chain: Chain, records: Records, jobs: seq<Job>, done: set<nat>)
    requires SyncedFor(chain, Cellular(records), jobs, done)
    requires forall id :: id in records && HasOkay(records[id].cells) ==> id.contract in done
    ensures Corrective(chain, Cellular(records), jobs)
  {}
}
