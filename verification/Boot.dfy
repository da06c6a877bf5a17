/** Draining a queue of jobs for different deployments, and the reinstalls of a node boot. */
module Boot {
  import opened Workloads
  import opened Plans
  import opened Jobs
  import opened Replay
  import opened Runs
  import opened Visits

  // ---------- draining ----------

  function DrainStore(cfg: Config, store: Store, jobs: seq<Job>): Store
    decreases jobs
  {
    if jobs == [] then store
    else
      var id := jobs[0].target.id;
      DrainStore(cfg, PutSlot(store, id, Final(cfg, jobs[0], SlotOf(store, id))), jobs[1..])
  }

  function DrainCalls(cfg: Config, store: Store, jobs: seq<Job>): seq<Call>
    decreases jobs
  {
    if jobs == [] then []
    else
      var id := jobs[0].target.id;
      JobEffect(cfg, jobs[0], SlotOf(store, id)).calls
      + DrainCalls(cfg, PutSlot(store, id, Final(cfg, jobs[0], SlotOf(store, id))), jobs[1..])
  }

  ghost predicate DistinctTargets(jobs: seq<Job>)
  {
    forall i, j :: 0 <= i < j < |jobs| ==> jobs[i].target.id != jobs[j].target.id
  }

  lemma DistinctTail(jobs: seq<Job>)
    requires jobs != [] && DistinctTargets(jobs)
    ensures DistinctTargets(jobs[1..])
    ensures forall i :: 0 <= i < |jobs[1..]| ==>
      jobs[1..][i] == jobs[i + 1] && jobs[1..][i].target.id != jobs[0].target.id
  {}

  /** Jobs for different deployments do not disturb each other: each deployment ends where its own
      job takes it, all others stay. */
  lemma {:induction false} DrainSlots(cfg: Config, store: Store, jobs: seq<Job>)
    requires DistinctTargets(jobs)
    ensures forall i :: 0 <= i < |jobs| ==>
      SlotOf(DrainStore(cfg, store, jobs), jobs[i].target.id) == Final(cfg, jobs[i], SlotOf(store, jobs[i].target.id))
    ensures forall id: DlId :: (forall i :: 0 <= i < |jobs| ==> jobs[i].target.id != id) ==>
      SlotOf(DrainStore(cfg, store, jobs), id) == SlotOf(store, id)
    decreases jobs
  {
    if jobs != [] {
      var id0 := jobs[0].target.id;
      var final0 := Final(cfg, jobs[0], SlotOf(store, id0));
      var mid := PutSlot(store, id0, final0);
      DistinctTail(jobs);
      DrainSlots(cfg, mid, jobs[1..]);
      var last := DrainStore(cfg, mid, jobs[1..]);
      assert SlotOf(last, id0) == final0 by {
        PutGet(store, id0, final0, id0);
      }
      forall i | 0 <= i < |jobs|
        ensures SlotOf(last, jobs[i].target.id) == Final(cfg, jobs[i], SlotOf(store, jobs[i].target.id))
      {
        if i > 0 {
          PutGet(store, id0, final0, jobs[i].target.id);
          assert jobs[1..][i - 1] == jobs[i];
        }
      }
      forall id: DlId | forall i :: 0 <= i < |jobs| ==> jobs[i].target.id != id
        ensures SlotOf(last, id) == SlotOf(store, id)
      {
        PutGet(store, id0, final0, id);
        assert jobs[0].target.id != id;
      }
    }
  }

  // ---------- boot ----------

  /** The queue `boot` leaves behind on an empty one: one reinstall, without validation of the
      hash, of every active stored deployment, and nothing for the others. */
  ghost predicate Booted(active: Cells -> bool, store: Store, jobs: seq<Job>)
  {
    && DistinctTargets(jobs)
    && (forall i :: 0 <= i < |jobs| ==> ReinstallsStored(active, store, jobs[i]))
    && (forall id :: id in store && active(store[id]) ==> Targeted(jobs, id))
  }

  ghost predicate ReinstallsStored(active: Cells -> bool, store: Store, job: Job)
  {
    && job.Reinstall? && job.target.id in store
    && Lists(job.target.workloads, store[job.target.id])
    && active(store[job.target.id])
  }

  ghost predicate Targeted(jobs: seq<Job>, id: DlId)
  {
    exists i :: 0 <= i < |jobs| && jobs[i].target.id == id
  }

  /** How often a boot should provision `w`: once if `w` is the stored record of its name, its type
      is known to the engine and it is neither deleted nor in error. */
  function Due(cfg: Config, cells: Cells, w: Workload): nat
  {
    if w.name in cells && cells[w.name] == w && !w.result.state.IsDead() && w.typ in cfg.order then 1 else 0
  }

  lemma ConsCount<T>(x: T, xs: seq<T>, y: T)
    ensures multiset([x] + xs)[y] == multiset(xs)[y] + if x == y then 1 else 0
  {}

  lemma {:induction false} LiveCount(cells: Cells, ws: seq<Workload>, w: Workload)
    ensures multiset(Live(cells, ws))[w] == if IsLive(cells, w) then multiset(ws)[w] else 0
  {
    if ws != [] {
      LiveCount(cells, ws[1..], w);
      assert ws == [ws[0]] + ws[1..];
      ConsCount(ws[0], ws[1..], w);
      ConsCount(ws[0], Live(cells, ws[1..]), w);
      assert Live(cells, ws) == if IsLive(cells, ws[0]) then [ws[0]] + Live(cells, ws[1..]) else Live(cells, ws[1..]);
    }
  }

  lemma {:induction false} ProvisionCallsCount(id: DlId, ws: seq<Workload>, other: DlId, w: Workload)
    ensures multiset(ProvisionCalls(id, ws))[ProvisionCall(other, w)] == if other == id then multiset(ws)[w] else 0
  {
    if ws != [] {
      ProvisionCallsCount(id, ws[1..], other, w);
      assert ws == [ws[0]] + ws[1..];
      assert ProvisionCalls(id, ws) == [ProvisionCall(id, ws[0])] + ProvisionCalls(id, ws[1..]);
    }
  }

  lemma JobCount(cfg: Config, job: Job, cells: Cells, id: DlId, w: Workload)
    requires NoDuplicates(cfg.order) && job.Reinstall? && !Refused(cfg, job)
    requires Lists(job.target.workloads, cells)
    ensures multiset(JobEffect(cfg, job, Some(cells)).calls)[ProvisionCall(id, w)]
      == if id == job.target.id then Due(cfg, cells, w) else 0
    ensures forall c :: c in JobEffect(cfg, job, Some(cells)).calls ==> c.ProvisionCall?
  {
    var ws := job.target.workloads;
    var plan := InstallPlan(cfg.sizes, cfg.order, ws);
    InstallCalls(cfg, job, cells);
    ProvisionCallsCount(job.target.id, Live(cells, plan), id, w);
    LiveCount(cells, plan, w);
    Coverage(cfg.sizes, cfg.order, ws);
    assert Covers(cfg.order, ws, plan);
    ListsCount(ws, cells, w);
  }

  lemma {:induction false} DrainCount(cfg: Config, active: Cells -> bool, store: Store, jobs: seq<Job>, id: DlId,
                                      w: Workload)
    requires NoDuplicates(cfg.order) && DistinctTargets(jobs)
    requires forall i :: 0 <= i < |jobs| ==> ReinstallsStored(active, store, jobs[i]) && !Refused(cfg, jobs[i])
    ensures multiset(DrainCalls(cfg, store, jobs))[ProvisionCall(id, w)]
      == if Targeted(jobs, id) && id in store then Due(cfg, store[id], w) else 0
    ensures forall c :: c in DrainCalls(cfg, store, jobs) ==> c.ProvisionCall?
    decreases jobs
  {
    if jobs != [] {
      var id0 := jobs[0].target.id;
      var final0 := Final(cfg, jobs[0], SlotOf(store, id0));
      var mid := PutSlot(store, id0, final0);
      DistinctTail(jobs);
      JobCount(cfg, jobs[0], store[id0], id, w);
      forall i | 0 <= i < |jobs[1..]|
        ensures ReinstallsStored(active, mid, jobs[1..][i]) && !Refused(cfg, jobs[1..][i])
      {
        PutGet(store, id0, final0, jobs[i + 1].target.id);
        assert ReinstallsStored(active, store, jobs[i + 1]);
      }
      DrainCount(cfg, active, mid, jobs[1..], id, w);
      PutGet(store, id0, final0, id);
      TargetedTail(jobs, id);
    }
  }

  lemma TargetedTail(jobs: seq<Job>, id: DlId)
    requires jobs != [] && DistinctTargets(jobs)
    ensures Targeted(jobs, id) <==> jobs[0].target.id == id || Targeted(jobs[1..], id)
    ensures Targeted(jobs[1..], id) ==> jobs[0].target.id != id
  {
    if Targeted(jobs[1..], id) {
      var i :| 0 <= i < |jobs[1..]| && jobs[1..][i].target.id == id;
      assert jobs[i + 1].target.id == id;
    }
    if i :| 0 < i < |jobs| && jobs[i].target.id == id {
      assert jobs[1..][i - 1].target.id == id;
    }
  }

  /** A boot reinstalls exactly once: draining the boot queue, with every contract lookup passing,
      calls Provision exactly once for each stored workload of an active deployment that is
      neither deleted nor in error, and makes no other call. */
  lemma ReinstallsOnce(cfg: Config, active: Cells -> bool, store: Store, jobs: seq<Job>, id: DlId, w: Workload)
    requires NoDuplicates(cfg.order) && Booted(active, store, jobs)
    requires forall i :: 0 <= i < |jobs| ==> !Refused(cfg, jobs[i])
    ensures multiset(DrainCalls(cfg, store, jobs))[ProvisionCall(id, w)]
      == if id in store && active(store[id]) then Due(cfg, store[id], w) else 0
    ensures forall c :: c in DrainCalls(cfg, store, jobs) ==> c.ProvisionCall?
  {
    DrainCount(cfg, active, store, jobs, id, w);
    if Targeted(jobs, id) {
      var i :| 0 <= i < |jobs| && jobs[i].target.id == id;
      assert ReinstallsStored(active, store, jobs[i]);
    }
  }
}
