/** Pausing and resuming deployments with the map provisioner. */
module Pausing {
  import opened Workloads
  import opened Outcomes
  import opened Plans
  import opened Jobs
  import opened Replay

  /** The engine knows the type of `w`, has a manager for it, and pausing answers `Paused()`. */
  predicate CanPause(cfg: Config, managers: map<WorkloadType, Manager>, id: DlId, w: Workload)
  {
    w.typ in cfg.order && w.typ in managers && StateOf(PauseAnswer(managers[w.typ], id, w)) == Paused
  }

  predicate CanResume(cfg: Config, managers: map<WorkloadType, Manager>, id: DlId, w: Workload)
  {
    w.typ in cfg.order && w.typ in managers && StateOf(ResumeAnswer(managers[w.typ], id, w)) == Ok
  }

  /** What pausing records for `w`: its own data under the state and text of the answer. */
  function PausedForm(managers: map<WorkloadType, Manager>, id: DlId, w: Workload): Workload
  {
    if w.typ !in managers then w
    else
      var err := PauseAnswer(managers[w.typ], id, w);
      w.WithResults(Result(StateOf(err), TextOf(err), w.result.data))
  }

  function LockStep(job: Job, w: Workload): Step
  {
    if job.Pause? then Lock(w) else Unlock(w)
  }

  /** What a pause or resume with `w` in its snapshot makes of the record `c`. */
  function Locked(cfg: Config, job: Job, w: Workload, c: Cell): Cell
  {
    if w.typ in cfg.order then CellFinal(cfg.prov, job.target.id, LockStep(job, w), c) else c
  }

  /** `f` is `at` after a pause or resume made from a listing of `cells`. */
  ghost predicate LockedFrom(cfg: Config, job: Job, cells: Cells, at: Cells, f: Cells)
  {
    forall n :: CellOf(f, n) == if n in cells then Locked(cfg, job, cells[n], CellOf(at, n)) else CellOf(at, n)
  }

  function LockPlan(cfg: Config, job: Job): seq<Workload>
  {
    if job.Pause? then DownPlan(cfg.order, job.target.workloads) else UpPlan(cfg.order, job.target.workloads)
  }

  lemma LockSteps(cfg: Config, job: Job)
    requires job.Pause? || job.Resume?
    ensures |StepsOf(cfg, job)| == |LockPlan(cfg, job)|
    ensures forall i :: 0 <= i < |LockPlan(cfg, job)| ==> StepsOf(cfg, job)[i] == LockStep(job, LockPlan(cfg, job)[i])
  {}

  lemma LocksName(cfg: Config, job: Job, cells: Cells, at: Cells, f: Cells, plan: seq<Workload>, steps: seq<Step>,
                  n: Name)
    requires Lists(job.target.workloads, cells) && Covers(cfg.order, job.target.workloads, plan)
    requires |steps| == |plan| && forall i :: 0 <= i < |plan| ==> steps[i] == LockStep(job, plan[i])
    requires Completed(cfg.prov, job.target.id, steps, at, f)
    ensures CellOf(f, n) == if n in cells then Locked(cfg, job, cells[n], CellOf(at, n)) else CellOf(at, n)
  {
    var ws := job.target.workloads;
    if n in cells && cells[n].typ in cfg.order {
      var i := PlanHas(cfg.order, ws, plan, cells[n]);
      assert steps[i].wl.name == n;
    } else {
      forall i | 0 <= i < |steps| ensures steps[i].wl.name != n {
        PlanOnly(cfg.order, ws, plan, i);
      }
    }
  }

  lemma LockCompletes(cfg: Config, job: Job, at: Cells)
    requires NoDuplicates(cfg.order) && (job.Pause? || job.Resume?) && DistinctNames(job.target.workloads)
    ensures Final(cfg, job, Some(at)).Some?
    ensures Completed(cfg.prov, job.target.id, StepsOf(cfg, job), at, Final(cfg, job, Some(at)).value)
  {
    var steps := StepsOf(cfg, job);
    var e := StepsEffect(cfg.prov, job.target.id, steps, Some(at));
    StepsAreDistinct(cfg, job);
    StepsPoints(cfg.prov, job.target.id, steps, at, |e.writes|);
  }

  /** What a pause or resume, made from a listing of `cells` and run on `at`, does to each name. */
  lemma LocksEach(cfg: Config, job: Job, cells: Cells, at: Cells)
    requires NoDuplicates(cfg.order) && (job.Pause? || job.Resume?) && Lists(job.target.workloads, cells)
    ensures Final(cfg, job, Some(at)).Some?
    ensures LockedFrom(cfg, job, cells, at, Final(cfg, job, Some(at)).value)
  {
    LockCompletes(cfg, job, at);
    Coverage(cfg.sizes, cfg.order, job.target.workloads);
    LockSteps(cfg, job);
    var f, plan, steps := Final(cfg, job, Some(at)).value, LockPlan(cfg, job), StepsOf(cfg, job);
    assert Covers(cfg.order, job.target.workloads, plan);
    forall n ensures CellOf(f, n) == if n in cells then Locked(cfg, job, cells[n], CellOf(at, n)) else CellOf(at, n) {
      LocksName(cfg, job, cells, at, f, plan, steps, n);
    }
  }

  /** `f` is `cells` with every record changed by `change`. */
  ghost predicate Changed(cells: Cells, f: Cells, change: Workload -> Workload)
  {
    f.Keys == cells.Keys && forall n :: n in cells ==> f[n] == change(cells[n])
  }

  lemma LockedFresh(cfg: Config, job: Job, cells: Cells, f: Cells, change: Workload -> Workload)
    requires LockedFrom(cfg, job, cells, cells, f)
    requires forall n :: n in cells ==> Locked(cfg, job, cells[n], Some(cells[n])) == Some(change(cells[n]))
    ensures Changed(cells, f, change)
  {
    forall n ensures CellOf(f, n) == if n in cells then Some(change(cells[n])) else None {
      assert CellOf(cells, n) == if n in cells then Some(cells[n]) else None;
    }
    forall n ensures n in f <==> n in cells {
      assert CellOf(f, n) == if n in cells then Some(change(cells[n])) else None;
    }
    forall n | n in cells ensures f[n] == change(cells[n]) {
      assert CellOf(f, n) == Some(change(cells[n]));
    }
  }

  /** What a pause makes of the records it was made from: a workload that is not ok, or whose type
      the engine or the provisioner does not know, stays as it is. */
  function IfOkPaused(cfg: Config, managers: map<WorkloadType, Manager>, id: DlId): Workload -> Workload
  {
    (w: Workload) => if w.result.state == Ok && w.typ in cfg.order then PausedForm(managers, id, w) else w
  }

  function ResumedForm(managers: map<WorkloadType, Manager>, id: DlId, w: Workload): Workload
  {
    if w.typ !in managers then w
    else
      var err := ResumeAnswer(managers[w.typ], id, w);
      w.WithResults(Result(StateOf(err), TextOf(err), w.result.data))
  }

  function IfPausedOk(cfg: Config, managers: map<WorkloadType, Manager>, id: DlId): Workload -> Workload
  {
    (w: Workload) => if w.result.state == Paused && w.typ in cfg.order then ResumedForm(managers, id, w) else w
  }

  lemma PausingOne(cfg: Config, managers: map<WorkloadType, Manager>, job: Job, w: Workload)
    requires cfg.prov == MapProvisioner(managers) && job.Pause?
    ensures Locked(cfg, job, w, Some(w)) == Some(IfOkPaused(cfg, managers, job.target.id)(w))
  {}

  lemma ResumingOne(cfg: Config, managers: map<WorkloadType, Manager>, job: Job, w: Workload)
    requires cfg.prov == MapProvisioner(managers) && job.Resume?
    ensures Locked(cfg, job, w, Some(w)) == Some(IfPausedOk(cfg, managers, job.target.id)(w))
  {}

  /** Pausing from a fresh snapshot gives every ok workload the state its pause answers, with its
      data kept, and leaves every other record as it is. */
  lemma PausePauses(cfg: Config, managers: map<WorkloadType, Manager>, job: Job, cells: Cells)
    requires NoDuplicates(cfg.order) && cfg.prov == MapProvisioner(managers)
    requires job.Pause? && Lists(job.target.workloads, cells)
    ensures Final(cfg, job, Some(cells)).Some?
    ensures Changed(cells, Final(cfg, job, Some(cells)).value, IfOkPaused(cfg, managers, job.target.id))
  {
    LocksEach(cfg, job, cells, cells);
    forall n | n in cells { PausingOne(cfg, managers, job, cells[n]); }
    LockedFresh(cfg, job, cells, Final(cfg, job, Some(cells)).value, IfOkPaused(cfg, managers, job.target.id));
  }

  /** Resuming from a fresh snapshot does the same to the paused workloads. */
  lemma ResumeResumes(cfg: Config, managers: map<WorkloadType, Manager>, job: Job, cells: Cells)
    requires NoDuplicates(cfg.order) && cfg.prov == MapProvisioner(managers)
    requires job.Resume? && Lists(job.target.workloads, cells)
    ensures Final(cfg, job, Some(cells)).Some?
    ensures Changed(cells, Final(cfg, job, Some(cells)).value, IfPausedOk(cfg, managers, job.target.id))
  {
    LocksEach(cfg, job, cells, cells);
    forall n | n in cells { ResumingOne(cfg, managers, job, cells[n]); }
    LockedFresh(cfg, job, cells, Final(cfg, job, Some(cells)).value, IfPausedOk(cfg, managers, job.target.id));
  }

  /** The same workload, state and data; only the text of the result may differ. */
  predicate SameUpToText(x: Workload, y: Workload)
  {
    x == y.WithResults(y.result.(error := x.result.error))
  }

  /** Pausing a deployment without paused workloads and then resuming it from a snapshot read after
      the pause restores every workload, up to the text of its result, and leaves those that were
      not ok untouched. */
  lemma PauseResumeRoundTrip(cfg: Config, managers: map<WorkloadType, Manager>, pause: Job, resume: Job, cells: Cells)
    requires NoDuplicates(cfg.order) && cfg.prov == MapProvisioner(managers)
    requires pause.Pause? && Lists(pause.target.workloads, cells)
    requires forall n :: n in cells ==> cells[n].result.state != Paused
    requires forall n :: n in cells && cells[n].result.state == Ok ==>
      && CanPause(cfg, managers, pause.target.id, cells[n])
      && CanResume(cfg, managers, pause.target.id, PausedForm(managers, pause.target.id, cells[n]))
    requires resume.Resume? && resume.target.id == pause.target.id
    requires var mid := Final(cfg, pause, Some(cells)); mid.Some? && Lists(resume.target.workloads, mid.value)
    ensures var f := Final(cfg, resume, Final(cfg, pause, Some(cells)));
      && f.Some? && f.value.Keys == cells.Keys
      && forall n :: n in cells ==>
           SameUpToText(f.value[n], cells[n]) && (cells[n].result.state != Ok ==> f.value[n] == cells[n])
  {
    PausePauses(cfg, managers, pause, cells);
    var mid := Final(cfg, pause, Some(cells)).value;
    ResumeResumes(cfg, managers, resume, mid);
    RoundTripCells(cfg, managers, pause.target.id, cells, mid, Final(cfg, resume, Some(mid)).value);
  }

  lemma RoundTripCells(cfg: Config, managers: map<WorkloadType, Manager>, id: DlId, cells: Cells, mid: Cells, f: Cells)
    requires Changed(cells, mid, IfOkPaused(cfg, managers, id)) && Changed(mid, f, IfPausedOk(cfg, managers, id))
    requires forall n :: n in cells ==> cells[n].result.state != Paused
    requires forall n :: n in cells && cells[n].result.state == Ok ==>
      CanPause(cfg, managers, id, cells[n]) && CanResume(cfg, managers, id, PausedForm(managers, id, cells[n]))
    ensures f.Keys == cells.Keys
    ensures forall n :: n in cells ==>
      SameUpToText(f[n], cells[n]) && (cells[n].result.state != Ok ==> f[n] == cells[n])
  {
    forall n | n in cells
      ensures SameUpToText(f[n], cells[n]) && (cells[n].result.state != Ok ==> f[n] == cells[n])
    {
      assert mid[n] == IfOkPaused(cfg, managers, id)(cells[n]);
      assert f[n] == IfPausedOk(cfg, managers, id)(mid[n]);
    }
  }

  /** A resume whose snapshot was taken before the pause ran still shows the workloads as ok: every
      one of its steps is refused and the deployment stays paused. */
  lemma EarlyResumeIsRefused(cfg: Config, managers: map<WorkloadType, Manager>, resume: Job, snapshot: Cells, at: Cells)
    requires NoDuplicates(cfg.order) && cfg.prov == MapProvisioner(managers)
    requires resume.Resume? && Lists(resume.target.workloads, snapshot)
    requires forall n :: n in snapshot ==> snapshot[n].result.state != Paused
    ensures Final(cfg, resume, Some(at)) == Some(at)
  {
    LocksEach(cfg, resume, snapshot, at);
    var f := Final(cfg, resume, Some(at)).value;
    forall n ensures CellOf(f, n) == CellOf(at, n) {
      if n in snapshot { NotResumed(cfg, managers, resume, snapshot[n], CellOf(at, n)); }
    }
    SameCells(f, at);
  }

  lemma NotResumed(cfg: Config, managers: map<WorkloadType, Manager>, resume: Job, w: Workload, c: Cell)
    requires cfg.prov == MapProvisioner(managers) && resume.Resume? && w.result.state != Paused
    ensures Locked(cfg, resume, w, c) == c
  {
    assert cfg.prov.resume(resume.target.id, w).Failed?;
  }

  /** What the owner asked for: everything in a workload but its name and its result. */
  predicate SameDefinition(x: Workload, y: Workload) { x.typ == y.typ && x.spec == y.spec }

  /** The job writes the workload of its snapshot over the stored record `c`. */
  predicate Overwrites(cfg: Config, managers: map<WorkloadType, Manager>, job: Job, w: Workload, c: Workload)
  {
    && w.typ in cfg.order && w.typ in managers
    && w.result.state == (if job.Pause? then Ok else Paused)
    && c.result.state.IsOkay()
  }

  /** Pausing and resuming write back the snapshot they were enqueued with, whatever the manager
      answers. A stored workload keeps its definition exactly unless the job overwrites it with a
      snapshot that has another one: a pause or resume enqueued before an update of the workload ran
      puts the old definition back. */
  lemma LockKeepsDefinition(cfg: Config, managers: map<WorkloadType, Manager>, job: Job, snapshot: Cells, at: Cells,
                            n: Name)
    requires NoDuplicates(cfg.order) && cfg.prov == MapProvisioner(managers)
    requires (job.Pause? || job.Resume?) && Lists(job.target.workloads, snapshot)
    requires n in at
    ensures var f := Final(cfg, job, Some(at));
      && f.Some? && n in f.value
      && (SameDefinition(f.value[n], at[n]) <==>
            (n in snapshot && Overwrites(cfg, managers, job, snapshot[n], at[n]) ==>
              SameDefinition(snapshot[n], at[n])))
  {
    LocksEach(cfg, job, snapshot, at);
    var f := Final(cfg, job, Some(at)).value;
    assert CellOf(at, n) == Some(at[n]);
    if n in snapshot {
      OverwriteOne(cfg, managers, job, snapshot[n], at[n]);
      assert CellOf(f, n) == Locked(cfg, job, snapshot[n], Some(at[n]));
    } else {
      assert CellOf(f, n) == CellOf(at, n);
    }
  }

  lemma OverwriteOne(cfg: Config, managers: map<WorkloadType, Manager>, job: Job, w: Workload, c: Workload)
    requires cfg.prov == MapProvisioner(managers) && (job.Pause? || job.Resume?)
    ensures var l := Locked(cfg, job, w, Some(c));
      && l.Some?
      && (if Overwrites(cfg, managers, job, w, c) then SameDefinition(l.value, w) else l.value == c)
  {}
}
