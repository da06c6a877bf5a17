/** What each engine job does to the stored deployment it targets, write by write
    (pkg/provision/engine.go). Every write is one atomic storage operation, so the states between
    writes are exactly the ones a crash can leave behind. */
module Jobs {
  import opened Workloads
  import opened Outcomes
  import opened Plans

  datatype Job =
    | Provision(target: Deployment)
    | Reinstall(target: Deployment)
    | Deprovision(target: Deployment, reason: string)
    | Update(source: Deployment, target: Deployment)
    | Pause(target: Deployment)
    | Resume(target: Deployment)
  {
    /** Only these are checked against their contract before they run. */
    predicate NeedsValidation() { Provision? || Reinstall? || Update? }
  }

  datatype Call =
    | ProvisionCall(id: DlId, wl: Workload)
    | DeprovisionCall(id: DlId, wl: Workload)
    | UpdateCall(id: DlId, wl: Workload)
    | PauseCall(id: DlId, wl: Workload)
    | ResumeCall(id: DlId, wl: Workload)

  /** The engine's surroundings and settings. `check` is contract validation of a job: nothing, or
      the error it fails with. `upgrade` is `Deployment.Upgrade`. */
  datatype Config = Config(
    prov: Provisioner,
    order: seq<WorkloadType>,
    index: map<WorkloadType, int>,
    sizes: Sizes,
    upgrade: (Deployment, Deployment) -> Option<seq<UpgradeOp>>,
    check: Job -> Option<string>)

  /** The durable states written one after the other, the provisioner calls made, and whether
      the operation returned an error. */
  datatype Effect<S> = Effect(writes: seq<S>, calls: seq<Call>, failed: bool)

  function NoEffect<S>(): Effect<S> { Effect([], [], false) }

  function Then<S>(a: Effect<S>, b: Effect<S>): Effect<S>
  {
    Effect(a.writes + b.writes, a.calls + b.calls, a.failed || b.failed)
  }

  /** The state after the first `k` writes of `e`, starting from `s`. */
  function Point<S>(s: S, e: Effect<S>, k: nat): S
    requires k <= |e.writes|
  {
    if k == 0 then s else e.writes[k - 1]
  }

  function After<S>(s: S, e: Effect<S>): S { Point(s, e, |e.writes|) }

  // ---------- one workload ----------

  datatype Step =
    | Install(wl: Workload)
    | Uninstall(wl: Workload, reason: string)
    | Change(wl: Workload)
    | Lock(wl: Workload)
    | Unlock(wl: Workload)

  function InitResult(): Result { Result(Init, "", "") }

  /** `installWorkload`: add the workload if the store lacks it, leave it alone if it is deleted
      or in error, otherwise provision it and record the result. */
  function InstallCell(p: Provisioner, id: DlId, w: Workload, cell: Cell): Effect<Cell>
  {
    if cell.Some? && cell.value.result.state.IsDead() then NoEffect()
    else
      var added := if cell.None? then [Some(w.WithResults(InitResult()))] else [];
      match p.provision(id, w)
      case NoAction => Effect(added, [ProvisionCall(id, w)], false)
      case Done(r) => Effect(added + [Some(w.WithResults(r))], [ProvisionCall(id, w)], false)
      case Failed(part, err) =>
        Effect(added + [Some(w.WithResults(part.(state := Error, error := err)))], [ProvisionCall(id, w)], false)
  }

  /** `uninstallWorkload`: record the deletion and then remove the name, or record the error. */
  function UninstallCell(p: Provisioner, id: DlId, w: Workload, reason: string, cell: Cell): Effect<Cell>
  {
    if cell.None? then NoEffect()
    else
      match p.deprovision(id, w)
      case None => Effect([Some(w.WithResults(Result(Deleted, reason, ""))), None], [DeprovisionCall(id, w)], false)
      case Some(err) => Effect([Some(w.WithResults(Result(Error, err, "")))], [DeprovisionCall(id, w)], false)
  }

  /** A transaction is logged for any name, but it is the current record only of a name the
      deployment has. */
  function Logged(cell: Cell, w: Workload): Cell
  {
    if cell.None? then None else Some(w)
  }

  /** `updateWorkload`: never looks at the stored state first. */
  function ChangeCell(p: Provisioner, id: DlId, w: Workload, cell: Cell): Effect<Cell>
  {
    if !p.canUpdate(w.typ) then Effect([], [], true)
    else
      match p.update(id, w)
      case NoAction =>
        if cell.None? then Effect([], [UpdateCall(id, w)], true)
        else Effect([Some(w.WithResults(cell.value.result))], [UpdateCall(id, w)], false)
      case Done(r) => Effect([Logged(cell, w.WithResults(r))], [UpdateCall(id, w)], false)
      case Failed(_, _) => Effect([], [UpdateCall(id, w)], true)
  }

  /** `lockWorkload`: only a workload stored as ok or paused is touched. */
  function LockCell(answer: Outcome, call: Call, w: Workload, cell: Cell): Effect<Cell>
  {
    if cell.None? then Effect([], [], true)
    else if !cell.value.result.state.IsOkay() then NoEffect()
    else
      match answer
      case NoAction => Effect([], [call], false)
      case Failed(_, _) => Effect([], [call], true)
      case Done(r) => Effect([Some(w.WithResults(r))], [call], false)
  }

  function CellEffect(p: Provisioner, id: DlId, step: Step, cell: Cell): Effect<Cell>
  {
    match step
    case Install(w) => InstallCell(p, id, w, cell)
    case Uninstall(w, reason) => UninstallCell(p, id, w, reason, cell)
    case Change(w) => ChangeCell(p, id, w, cell)
    case Lock(w) => LockCell(p.pause(id, w), PauseCall(id, w), w, cell)
    case Unlock(w) => LockCell(p.resume(id, w), ResumeCall(id, w), w, cell)
  }

  // ---------- one deployment ----------

  function Lift(cells: Cells, name: Name, writes: seq<Cell>): seq<Slot>
  {
    seq(|writes|, i requires 0 <= i < |writes| => Some(SetCell(cells, name, writes[i])))
  }

  /** A step on a deployment. On a missing deployment every step fails without writing; an update
      has called the provisioner by then. */
  function StepEffect(p: Provisioner, id: DlId, step: Step, slot: Slot): Effect<Slot>
  {
    match slot
    case None => Effect([], if step.Change? && p.canUpdate(step.wl.typ) then [UpdateCall(id, step.wl)] else [], true)
    case Some(cells) =>
      var e := CellEffect(p, id, step, CellOf(cells, step.wl.name));
      Effect(Lift(cells, step.wl.name, e.writes), e.calls, e.failed)
  }

  /** Effects one after the other, each on the state the ones before it leave. */
  function Sequence<S, T>(f: (T, S) -> Effect<S>, xs: seq<T>, s: S): Effect<S>
  {
    if xs == [] then NoEffect()
    else
      var e := f(xs[0], s);
      Then(e, Sequence(f, xs[1..], After(s, e)))
  }

  function Stepping(p: Provisioner, id: DlId): (Step, Slot) -> Effect<Slot>
  {
    (step, slot) => StepEffect(p, id, step, slot)
  }

  function StepsEffect(p: Provisioner, id: DlId, steps: seq<Step>, slot: Slot): Effect<Slot>
  {
    Sequence(Stepping(p, id), steps, slot)
  }

  function Installs(ws: seq<Workload>): seq<Step>
  {
    seq(|ws|, i requires 0 <= i < |ws| => Install(ws[i]))
  }

  function Uninstalls(ws: seq<Workload>, reason: string): seq<Step>
  {
    seq(|ws|, i requires 0 <= i < |ws| => Uninstall(ws[i], reason))
  }

  function Locks(ws: seq<Workload>, lock: bool): seq<Step>
  {
    seq(|ws|, i requires 0 <= i < |ws| => if lock then Lock(ws[i]) else Unlock(ws[i]))
  }

  function OpStep(op: UpgradeOp): Step
  {
    match op
    case Remove(w) => Uninstall(w, "deleted by an update")
    case Add(w) => Install(w)
    case Change(w) => Step.Change(w)
  }

  function OpSteps(ops: seq<UpgradeOp>): seq<Step>
  {
    seq(|ops|, i requires 0 <= i < |ops| => OpStep(ops[i]))
  }

  /** The steps of a job that passed validation. */
  function StepsOf(cfg: Config, job: Job): seq<Step>
  {
    match job
    case Provision(d) => Installs(InstallPlan(cfg.sizes, cfg.order, d.workloads))
    case Reinstall(d) => Installs(InstallPlan(cfg.sizes, cfg.order, d.workloads))
    case Deprovision(d, reason) => Uninstalls(DownPlan(cfg.order, d.workloads), reason)
    case Update(src, d) =>
      (match cfg.upgrade(src, d) case None => [] case Some(ops) => OpSteps(SortOps(cfg.index, ops)))
    case Pause(d) => Locks(DownPlan(cfg.order, d.workloads), true)
    case Resume(d) => Locks(UpPlan(cfg.order, d.workloads), false)
  }

  predicate Refused(cfg: Config, job: Job)
  {
    job.NeedsValidation() && cfg.check(job).Some?
  }

  /** `storage.Error`: every workload of the deployment gets an error result. */
  function MarkError(slot: Slot, err: string): Slot
  {
    match slot
    case None => None
    case Some(cells) => Some(map n | n in cells :: cells[n].WithResults(Result(Error, err, "")))
  }

  /** A whole job: a refused one only marks the deployment; an uninstall without error ends by
      deleting the deployment. */
  function JobEffect(cfg: Config, job: Job, slot: Slot): Effect<Slot>
  {
    if Refused(cfg, job) then
      Effect(if slot.None? then [] else [MarkError(slot, cfg.check(job).value)], [], slot.None?)
    else
      var e := StepsEffect(cfg.prov, job.target.id, StepsOf(cfg, job), slot);
      if job.Deprovision? && !e.failed then Effect(e.writes + [None], e.calls, false) else e
  }

  /** The deployment once the job has run to completion. */
  function Final(cfg: Config, job: Job, slot: Slot): Slot
  {
    After(slot, JobEffect(cfg, job, slot))
  }

  // ---------- composition ----------

  lemma ThenPoints<S>(s: S, a: Effect<S>, b: Effect<S>, k: nat)
    requires k <= |Then(a, b).writes|
    ensures k <= |a.writes| ==> Point(s, Then(a, b), k) == Point(s, a, k)
    ensures k >= |a.writes| ==> Point(s, Then(a, b), k) == Point(After(s, a), b, k - |a.writes|)
  {}

  lemma ThenAssociates<S>(a: Effect<S>, b: Effect<S>, c: Effect<S>)
    ensures Then(a, Then(b, c)) == Then(Then(a, b), c)
  {
    assert a.writes + (b.writes + c.writes) == (a.writes + b.writes) + c.writes;
    assert a.calls + (b.calls + c.calls) == (a.calls + b.calls) + c.calls;
  }

  lemma {:induction false} SequenceAppend<S, T>(f: (T, S) -> Effect<S>, xs: seq<T>, ys: seq<T>, s: S)
    ensures var e := Sequence(f, xs, s);
      Sequence(f, xs + ys, s) == Then(e, Sequence(f, ys, After(s, e)))
    decreases |xs|
  {
    if xs == [] {
      assert xs + ys == ys;
      var e := Sequence(f, ys, s);
      assert Then(NoEffect<S>(), e) == e;
    } else {
      var e := f(xs[0], s);
      var mid := After(s, e);
      var rest, tail := Sequence(f, xs[1..], mid), Sequence(f, ys, After(mid, Sequence(f, xs[1..], mid)));
      SequenceAppend(f, xs[1..], ys, mid);
      assert (xs + ys)[0] == xs[0] && (xs + ys)[1..] == xs[1..] + ys;
      assert Sequence(f, xs + ys, s) == Then(e, Then(rest, tail));
      ThenPoints(s, e, rest, |Then(e, rest).writes|);
      ThenAssociates(e, rest, tail);
    }
  }

  lemma StepsAppend(p: Provisioner, id: DlId, xs: seq<Step>, ys: seq<Step>, slot: Slot)
    ensures var e := StepsEffect(p, id, xs, slot);
      StepsEffect(p, id, xs + ys, slot) == Then(e, StepsEffect(p, id, ys, After(slot, e)))
  {
    SequenceAppend(Stepping(p, id), xs, ys, slot);
  }

  lemma StepsFirst(p: Provisioner, id: DlId, steps: seq<Step>, slot: Slot)
    requires steps != []
    ensures var e := StepEffect(p, id, steps[0], slot);
      StepsEffect(p, id, steps, slot) == Then(e, StepsEffect(p, id, steps[1..], After(slot, e)))
  {}

  lemma OneStep(p: Provisioner, id: DlId, step: Step, slot: Slot)
    ensures StepsEffect(p, id, [step], slot) == StepEffect(p, id, step, slot)
  {
    var e, steps := StepEffect(p, id, step, slot), [step];
    assert steps[1..] == [] && StepsEffect(p, id, steps[1..], After(slot, e)) == NoEffect();
    StepsFirst(p, id, steps, slot);
    assert Then(e, NoEffect()) == e;
  }
}
