/** Reconciliation of the store with the chain (cmds/modules/provisiond/events.go). */
module Reconcile {
  import opened Workloads
  import opened Outcomes
  import opened Plans
  import opened Jobs
  import opened Replay
  import opened Runs
  import opened Boot
  import opened Pausing

  /** The contracts the chain lists for this node, and for each contract whether it is in its grace
      period, or nothing when asking for the contract fails. */
  datatype Chain = Chain(contracts: seq<nat>, locked: nat -> Option<bool>)

  datatype Need = Nothing | Uproot | Freeze | Thaw

  /** What a stored deployment needs to agree with the chain. */
  ghost function NeedOf(chain: Chain, contract: nat, cells: Cells): Need
  {
    if !HasOkay(cells) then Nothing
    else if contract !in chain.contracts then Uproot
    else match chain.locked(contract)
      case None => Nothing
      case Some(lock) => if lock == LockedCells(cells) then Nothing else if lock then Freeze else Thaw
  }

  predicate Serves(job: Job, need: Need)
  {
    match need
    case Nothing => false
    case Uproot => job.Deprovision?
    case Freeze => job.Pause?
    case Thaw => job.Resume?
  }

  ghost predicate CorrectiveJob(chain: Chain, store: Store, job: Job)
  {
    && job.target.id in store
    && Lists(job.target.workloads, store[job.target.id])
    && Serves(job, NeedOf(chain, job.target.id.contract, store[job.target.id]))
  }

  /** What `sync` enqueues: for every deployment in need exactly one job, which serves the need and
      carries the deployment as stored, and nothing for any other deployment. */
  ghost predicate Corrective(chain: Chain, store: Store, jobs: seq<Job>)
  {
    && DistinctTargets(jobs)
    && (forall i :: 0 <= i < |jobs| ==> CorrectiveJob(chain, store, jobs[i]))
    && (forall id :: id in store && NeedOf(chain, id.contract, store[id]) != Nothing ==> Targeted(jobs, id))
  }

  ghost predicate Settled(chain: Chain, store: Store)
  {
    forall id :: id in store ==> NeedOf(chain, id.contract, store[id]) == Nothing
  }

  /** A sync enqueues nothing exactly if the store is settled. */
  lemma SyncIsIdle(chain: Chain, store: Store, jobs: seq<Job>)
    requires Corrective(chain, store, jobs)
    ensures jobs == [] <==> Settled(chain, store)
  {
    if jobs == [] {
      forall id | id in store ensures NeedOf(chain, id.contract, store[id]) == Nothing {
        assert !Targeted(jobs, id);
      }
    } else {
      assert CorrectiveJob(chain, store, jobs[0]);
    }
  }

  /** The engine knows the type of `w` and the provisioner has a manager for it. */
  predicate Known(cfg: Config, managers: map<WorkloadType, Manager>, w: Workload)
  {
    w.typ in cfg.order && w.typ in managers
  }

  /** Whether one correction is enough for a deployment, by its stored states and the answers of its
      managers: to a pause, either some ok workload answers paused, or every ok workload gives up
      being ok; to a resume, no paused workload stays paused. */
  ghost predicate Converges(cfg: Config, managers: map<WorkloadType, Manager>, chain: Chain, id: DlId, cells: Cells)
  {
    match NeedOf(chain, id.contract, cells)
    case Freeze =>
      || (exists n :: n in cells && cells[n].result.state == Ok && CanPause(cfg, managers, id, cells[n]))
      || (forall n :: n in cells && cells[n].result.state == Ok ==>
            Known(cfg, managers, cells[n]) && StateOf(PauseAnswer(managers[cells[n].typ], id, cells[n])) != Ok)
    case Thaw =>
      forall n :: n in cells && cells[n].result.state == Paused ==>
        Known(cfg, managers, cells[n]) && StateOf(ResumeAnswer(managers[cells[n].typ], id, cells[n])) != Paused
    case _ => true
  }

  /** The states a pause leaves behind. */
  lemma PauseLeaves(cfg: Config, managers: map<WorkloadType, Manager>, id: DlId, w: Workload)
    ensures var s := IfOkPaused(cfg, managers, id)(w).result.state;
      && (w.result.state != Ok ==> s == w.result.state)
      && (w.result.state == Ok ==> (s == Paused <==> CanPause(cfg, managers, id, w)))
      && (w.result.state == Ok ==>
            (s == Ok <==> !(Known(cfg, managers, w) && StateOf(PauseAnswer(managers[w.typ], id, w)) != Ok)))
  {}

  lemma ResumeLeaves(cfg: Config, managers: map<WorkloadType, Manager>, id: DlId, w: Workload)
    ensures var s := IfPausedOk(cfg, managers, id)(w).result.state;
      && (w.result.state != Paused ==> s == w.result.state)
      && (w.result.state == Paused ==>
            (s == Paused <==> !(Known(cfg, managers, w) && StateOf(ResumeAnswer(managers[w.typ], id, w)) != Paused)))
  {}

  lemma FreezeConverges(cfg: Config, managers: map<WorkloadType, Manager>, chain: Chain, job: Job, cells: Cells)
    requires NoDuplicates(cfg.order) && cfg.prov == MapProvisioner(managers)
    requires Lists(job.target.workloads, cells) && job.Pause?
    requires NeedOf(chain, job.target.id.contract, cells) == Freeze
    ensures Final(cfg, job, Some(cells)).Some?
    ensures NeedOf(chain, job.target.id.contract, Final(cfg, job, Some(cells)).value) == Nothing
      <==> Converges(cfg, managers, chain, job.target.id, cells)
  {
    PausePauses(cfg, managers, job, cells);
    ChangedStates(cells, Final(cfg, job, Some(cells)).value, IfOkPaused(cfg, managers, job.target.id));
    forall n | n in cells { PauseLeaves(cfg, managers, job.target.id, cells[n]); }
  }

  lemma ThawConverges(cfg: Config, managers: map<WorkloadType, Manager>, chain: Chain, job: Job, cells: Cells)
    requires NoDuplicates(cfg.order) && cfg.prov == MapProvisioner(managers)
    requires Lists(job.target.workloads, cells) && job.Resume?
    requires NeedOf(chain, job.target.id.contract, cells) == Thaw
    ensures Final(cfg, job, Some(cells)).Some?
    ensures NeedOf(chain, job.target.id.contract, Final(cfg, job, Some(cells)).value) == Nothing
      <==> Converges(cfg, managers, chain, job.target.id, cells)
  {
    ResumeResumes(cfg, managers, job, cells);
    ChangedStates(cells, Final(cfg, job, Some(cells)).value, IfPausedOk(cfg, managers, job.target.id));
    forall n | n in cells { ResumeLeaves(cfg, managers, job.target.id, cells[n]); }
  }

  lemma ChangedStates(cells: Cells, f: Cells, change: Workload -> Workload)
    requires Changed(cells, f, change)
    ensures LockedCells(f) <==> exists n :: n in cells && change(cells[n]).result.state == Paused
    ensures HasOkay(f) <==> exists n :: n in cells && change(cells[n]).result.state.IsOkay()
  {
    if LockedCells(f) {
      var n :| n in f && f[n].result.state == Paused;
      assert n in cells && change(cells[n]) == f[n];
    }
    if HasOkay(f) {
      var n :| n in f && f[n].result.state.IsOkay();
      assert n in cells && change(cells[n]) == f[n];
    }
    if n :| n in cells && change(cells[n]).result.state == Paused {
      assert n in f && f[n].result.state == Paused;
    }
    if n :| n in cells && change(cells[n]).result.state.IsOkay() {
      assert n in f && f[n].result.state.IsOkay();
    }
  }

  /** One deployment after its correction ran. */
  lemma CorrectionSettles(cfg: Config, managers: map<WorkloadType, Manager>, chain: Chain, store: Store, job: Job)
    requires NoDuplicates(cfg.order) && cfg.prov == MapProvisioner(managers)
    requires CorrectiveJob(chain, store, job)
    ensures var id := job.target.id;
      var f := Final(cfg, job, SlotOf(store, id));
      (f.Some? ==> NeedOf(chain, id.contract, f.value) == Nothing) <==> Converges(cfg, managers, chain, id, store[id])
  {
    var cells := store[job.target.id];
    match NeedOf(chain, job.target.id.contract, cells)
    case Uproot => DeprovisionLeavesNothing(cfg, job, Some(cells));
    case Freeze => FreezeConverges(cfg, managers, chain, job, cells);
    case Thaw => ThawConverges(cfg, managers, chain, job, cells);
  }

  /** Reconciliation reaches a fixpoint, exactly when it can: after one sync and a fault-free drain
      of what it enqueued, a second sync against the same chain enqueues nothing if and only if one
      correction is enough for every deployment. */
  lemma Fixpoint(cfg: Config, managers: map<WorkloadType, Manager>, chain: Chain, store: Store, jobs: seq<Job>,
                 again: seq<Job>)
    requires NoDuplicates(cfg.order) && cfg.prov == MapProvisioner(managers)
    requires Corrective(chain, store, jobs)
    requires Corrective(chain, DrainStore(cfg, store, jobs), again)
    ensures again == [] <==> forall id :: id in store ==> Converges(cfg, managers, chain, id, store[id])
  {
    var after := DrainStore(cfg, store, jobs);
    DrainSlots(cfg, store, jobs);
    SyncIsIdle(chain, after, again);
    forall id | id in store
      ensures (id in after ==> NeedOf(chain, id.contract, after[id]) == Nothing)
        <==> Converges(cfg, managers, chain, id, store[id])
    {
      if Targeted(jobs, id) {
        var i :| 0 <= i < |jobs| && jobs[i].target.id == id;
        assert CorrectiveJob(chain, store, jobs[i]);
        CorrectionSettles(cfg, managers, chain, store, jobs[i]);
        assert SlotOf(after, id) == Final(cfg, jobs[i], SlotOf(store, id));
      } else {
        assert SlotOf(after, id) == SlotOf(store, id);
      }
    }
    forall id | id in after ensures id in store {
      if Targeted(jobs, id) {
        var i :| 0 <= i < |jobs| && jobs[i].target.id == id;
        assert CorrectiveJob(chain, store, jobs[i]);
      } else {
        assert SlotOf(after, id) == SlotOf(store, id);
      }
    }
  }

  /** Managers that answer pauses with `Paused()` and resumes with success always converge. */
  lemma AnsweringManagersConverge(cfg: Config, managers: map<WorkloadType, Manager>, chain: Chain, id: DlId,
                                  cells: Cells)
    requires forall n :: n in cells && cells[n].result.state == Ok ==> CanPause(cfg, managers, id, cells[n])
    requires forall n :: n in cells && cells[n].result.state == Paused ==> CanResume(cfg, managers, id, cells[n])
    ensures Converges(cfg, managers, chain, id, cells)
  {
    if NeedOf(chain, id.contract, cells) == Freeze {
      var n :| n in cells && cells[n].result.state.IsOkay();
      assert cells[n].result.state == Ok;
    }
  }

  /** The promise of the reconciler under the answers it expects. */
  lemma SyncConverges(cfg: Config, managers: map<WorkloadType, Manager>, chain: Chain, store: Store, jobs: seq<Job>,
                      again: seq<Job>)
    requires NoDuplicates(cfg.order) && cfg.prov == MapProvisioner(managers)
    requires forall id, n :: id in store && n in store[id] ==>
      && (store[id][n].result.state == Ok ==> CanPause(cfg, managers, id, store[id][n]))
      && (store[id][n].result.state == Paused ==> CanResume(cfg, managers, id, store[id][n]))
    requires Corrective(chain, store, jobs)
    requires Corrective(chain, DrainStore(cfg, store, jobs), again)
    ensures again == []
  {
    forall id | id in store ensures Converges(cfg, managers, chain, id, store[id]) {
      AnsweringManagersConverge(cfg, managers, chain, id, store[id]);
    }
    Fixpoint(cfg, managers, chain, store, jobs, again);
  }
}
